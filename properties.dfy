/** What the registration dialogue promises, stated over `Registration.Step`. */
module RegistrationProperties {
  import opened Wrappers
  import opened Text
  import opened Lists
  import opened LanguageMap
  import opened Registration

  /** Text that does not begin with '/' is never the `/start` command. */
  lemma NotStartCommand(t: string)
    requires t == [] || t[0] != '/'
    ensures !IsStartCommand(t)
  {
  }

  /**
   * `/start` is recognised alone, before any whitespace-separated arguments and with an empty
   * mention, but not as the prefix of a longer word.
   */
  lemma StartCommandForms(sep: char, args: string)
    requires IsSpace(sep)
    ensures IsStartCommand("/start")
    ensures IsStartCommand("/start" + [sep] + args)
    ensures IsStartCommand("/start@")
    ensures !IsStartCommand("/started")
  {
    assert ("/start" + [sep] + args)[6] == sep;
  }

  /** A message that reaches the handler of the current state: not `/start`, not the "Registration" button. */
  predicate Routed(e: Event) {
    e.Photo? || (!IsStartCommand(e.text) && e.text != RegistrationButton)
  }

  // ---------------------------------------------------------------- entry and role

  /** The "Registration" button, in any state, asks for the role and keeps the data. */
  lemma RegistrationFromAnyState(s: Snapshot)
    ensures Step(s, Text(RegistrationButton)).session == Snapshot(ChoosingRole, s.data)
    ensures Step(s, Text(RegistrationButton)).effect.Keyboard?
  {
  }

  /** `/start` only greets: the conversation is unchanged in every state. */
  lemma StartKeepsSession(s: Snapshot, t: string)
    requires IsStartCommand(t)
    ensures Step(s, Text(t)).session == s
  {
  }

  /** Only "Программист" and "Фаундер" leave `choosing_role`; nothing changes the data. */
  lemma RoleChoice(s: Snapshot, e: Event)
    requires s.state == ChoosingRole && Routed(e)
    ensures Step(s, e).session.data == s.data
    ensures Step(s, e).session.state ==
      if e == Text(Programmer) then ProgrammerName
      else if e == Text(Founder) then FounderName
      else ChoosingRole
  {
  }

  /** `founder_name` has no handler: every routed message is ignored there. */
  lemma FounderNameIsDeadEnd(s: Snapshot, e: Event)
    requires s.state == FounderName && Routed(e)
    ensures Step(s, e) == Outcome(s, Silent)
  {
  }

  // ---------------------------------------------------------------- age, university, photo

  /** A digit string is stored as its integer value and moves on; anything else changes nothing. */
  lemma AgeStep(s: Snapshot, t: string)
    requires s.state == ProgrammerAge && Routed(Text(t))
    ensures !IsDigits(t) ==> Step(s, Text(t)).session == s
    ensures IsDigits(t) ==> Step(s, Text(t)).session == Snapshot(ProgrammerUniversity, s.data.(age := Some(ParseNat(t))))
  {
  }

  /** The caption shows the age exactly as typed when it has no leading zero ("025" is shown as "25"). */
  lemma AgeShownAsTyped(t: string)
    requires IsDigits(t) && (t[0] == '0' ==> |t| == 1)
    ensures ShownAge(Some(ParseNat(t))) == t
  {
    NatToStringParseNat(t);
  }

  /** "НИУ ВШЭ" is stored and moves on; "моего вуза нет в списке" clears everything; anything else changes nothing. */
  lemma UniversityStep(s: Snapshot, e: Event)
    requires s.state == ProgrammerUniversity && Routed(e)
    ensures e == Text(Hse) ==> Step(s, e).session == Snapshot(ProgrammerFaculty, s.data.(university := Some(Hse)))
    ensures e == Text(NoUniversity) ==> Step(s, e).session == Snapshot(Idle, EmptyDraft)
    ensures e != Text(Hse) && e != Text(NoUniversity) ==> Step(s, e).session == s
  {
  }

  /** Text is ignored in `programmer_photo`. */
  lemma PhotoIgnoresText(s: Snapshot, t: string)
    requires s.state == ProgrammerPhoto && Routed(Text(t))
    ensures Step(s, Text(t)) == Outcome(s, Silent)
  {
  }

  /** A photo leaves `programmer_photo`, keeping the id of its last (largest) size. */
  lemma PhotoStep(s: Snapshot, sizes: PhotoSizes)
    requires s.state == ProgrammerPhoto
    ensures Step(s, Photo(sizes)).session == Snapshot(ProgrammerSpecialty, s.data.(photoId := Some(sizes[|sizes| - 1])))
  {
  }

  // ---------------------------------------------------------------- specialties

  /** A specialty is added once, after those chosen before it; choosing it again changes nothing. */
  lemma SpecialtyAdd(s: Snapshot, t: string)
    requires s.state == ProgrammerSpecialty && Routed(Text(t)) && t != Done
    ensures Step(s, Text(t)).session.state == ProgrammerSpecialty
    ensures Step(s, Text(t)).session.data == s.data.(specialties := AppendIfAbsent(s.data.specialties, t))
    ensures Step(Step(s, Text(t)).session, Text(t)).session == Step(s, Text(t)).session
  {
    AppendIfAbsentIdempotent(s.data.specialties, t);
  }

  /**
   * "Готово ✅" with nothing chosen stays put and sends nothing; otherwise the first specialty
   * becomes current and its languages are offered, or the step fails when the table lacks it.
   */
  lemma FinishSpecialties(s: Snapshot)
    requires s.state == ProgrammerSpecialty
    ensures s.data.specialties == [] ==> Step(s, Text(Done)) == Outcome(s, Silent)
    ensures s.data.specialties != [] && s.data.specialties[0] in SpecialtyOptions ==>
      && Step(s, Text(Done)).session
         == Snapshot(ChoosingLanguage, s.data.(currentSpecialty := Some(s.data.specialties[0])))
      && Step(s, Text(Done)).effect.Keyboard?
      && Step(s, Text(Done)).effect.options == LanguagesFor(s.data.specialties[0]).value + [Done]
    ensures s.data.specialties != [] && s.data.specialties[0] !in SpecialtyOptions ==>
      Step(s, Text(Done)) == Outcome(s, Failed(KeyError(s.data.specialties[0])))
  {
  }

  // ---------------------------------------------------------------- languages

  /** In `choosing_language` the current specialty is the first pending one. */
  predicate OnHead(s: Snapshot) {
    s.state == ChoosingLanguage ==>
      s.data.specialties != [] && s.data.currentSpecialty == Some(s.data.specialties[0])
  }

  /**
   * A language is appended, in order and duplicates allowed, under the current specialty only;
   * the state, the pending specialties and every other field are kept.
   */
  lemma LanguagePick(s: Snapshot, t: string)
    requires s.state == ChoosingLanguage && OnHead(s) && Routed(Text(t)) && t != Done
    ensures Step(s, Text(t)) ==
      Outcome(Snapshot(ChoosingLanguage, s.data.(languages := SetDefaultAppend(s.data.languages, s.data.specialties[0], t))),
              Reply(LanguageAdded(t)))
    ensures Get(Step(s, Text(t)).session.data.languages, s.data.specialties[0])
            == Get(s.data.languages, s.data.specialties[0]) + [t]
    ensures forall k :: k != s.data.specialties[0] ==>
              Get(Step(s, Text(t)).session.data.languages, k) == Get(s.data.languages, k)
  {
  }

  /**
   * "Готово ✅" removes exactly the current specialty and keeps the languages collected so far;
   * then the next specialty's languages are offered, or, when none is left, the GitHub link is
   * asked for.
   */
  lemma LanguageDone(s: Snapshot)
    requires s.state == ChoosingLanguage && OnHead(s)
    ensures var rest := s.data.specialties[1..];
      |s.data.specialties| == 1 ==>
        Step(s, Text(Done)) == Outcome(Snapshot(GithubLink, s.data.(specialties := rest)), Keyboard(AskGithub, [Skip]))
    ensures var rest := s.data.specialties[1..];
      |s.data.specialties| > 1 && rest[0] in SpecialtyOptions ==>
        Step(s, Text(Done)) ==
          Outcome(Snapshot(ChoosingLanguage, s.data.(specialties := rest, currentSpecialty := Some(rest[0]))),
                  Keyboard(AskLanguages(rest[0]), LanguagesFor(rest[0]).value + [Done]))
    ensures var rest := s.data.specialties[1..];
      |s.data.specialties| > 1 && rest[0] !in SpecialtyOptions ==>
        Step(s, Text(Done)) == Outcome(Snapshot(ChoosingLanguage, s.data.(specialties := rest)), Failed(KeyError(rest[0])))
  {
  }

  // ---------------------------------------------------------------- optional fields

  /** "Пропустить" leaves the GitHub link unset; other text is stored verbatim; the resume link is asked for next. */
  lemma GithubLinkStep(s: Snapshot, t: string)
    requires s.state == GithubLink && Routed(Text(t))
    ensures Step(s, Text(t)).session.state == ResumeLink
    ensures Step(s, Text(t)).session.data == s.data.(githubLink := if t == Skip then s.data.githubLink else Some(t))
  {
  }

  /** "Пропустить" leaves the resume link unset; other text is stored verbatim; "about me" is asked for next. */
  lemma ResumeLinkStep(s: Snapshot, t: string)
    requires s.state == ResumeLink && Routed(Text(t))
    ensures Step(s, Text(t)).session.state == AboutMe
    ensures Step(s, Text(t)).session.data == s.data.(resumeLink := if t == Skip then s.data.resumeLink else Some(t))
  {
  }

  /** The last answer sends the photo with the caption of the completed data and clears the conversation. */
  lemma AboutMeStep(s: Snapshot, t: string)
    requires s.state == AboutMe && Routed(Text(t))
    ensures Step(s, Text(t)).session == Snapshot(Idle, EmptyDraft)
    ensures Step(s, Text(t)).effect ==
      var d := s.data.(aboutMe := if t == Skip then s.data.aboutMe else Some(t));
      SendPhoto(d.photoId, Caption(d))
  {
  }

  // ---------------------------------------------------------------- invariant

  /**
   * What holds of every conversation: pending specialties are distinct, each language key
   * appears once and holds at least one language, and choosing languages has a current specialty.
   */
  predicate Inv(s: Snapshot) {
    && Distinct(s.data.specialties)
    && Distinct(Keys(s.data.languages))
    && AllNonEmpty(s.data.languages)
    && (s.state == ChoosingLanguage ==> s.data.currentSpecialty.Some?)
  }

  lemma InitialInv()
    ensures Inv(Snapshot(Idle, EmptyDraft))
  {
  }

  lemma PromptKeepsInv(s: Snapshot, pending: seq<string>)
    requires Inv(s)
    ensures Inv(PromptForLanguages(s, pending).session)
  {
  }

  lemma LanguageKeepsInv(s: Snapshot, t: string)
    requires Inv(s) && s.state == ChoosingLanguage
    ensures Inv(ProcessChoosingLanguage(s, t).session)
  {
    var current := s.data.currentSpecialty.value;
    if t == Done && current in s.data.specialties {
      RemoveFirstDistinct(s.data.specialties, current);
      var rest := RemoveFirst(s.data.specialties, current).value;
      PromptKeepsInv(Snapshot(s.state, s.data.(specialties := rest)), rest);
    }
  }

  lemma OnTextKeepsInv(s: Snapshot, t: string)
    requires Inv(s)
    ensures Inv(OnText(s, t).session)
  {
    match s.state
    case ProgrammerSpecialty =>
      PromptKeepsInv(s, s.data.specialties);
    case ChoosingLanguage =>
      LanguageKeepsInv(s, t);
    case _ =>
  }

  /** Every step keeps the invariant, whatever the message. */
  lemma StepKeepsInv(s: Snapshot, e: Event)
    requires Inv(s)
    ensures Inv(Step(s, e).session)
  {
    if e.Text? {
      OnTextKeepsInv(s, e.text);
    }
  }

  /** The invariant holds after any sequence of messages from the start. */
  lemma {:induction false} RunKeepsInv(s: Snapshot, events: seq<Event>)
    requires Inv(s)
    ensures Inv(Run(s, events).session)
    decreases |events|
  {
    if events != [] {
      StepKeepsInv(s, events[0]);
      if |events| > 1 {
        RunKeepsInv(Step(s, events[0]).session, events[1..]);
      }
    }
  }

  /** So a language is never chosen without a current specialty. */
  lemma NoCurrentSpecialtyNeverRaised(events: seq<Event>, e: Event)
    ensures Step(Run(Snapshot(Idle, EmptyDraft), events).session, e).effect != Failed(NoCurrentSpecialty)
  {
    InitialInv();
    RunKeepsInv(Snapshot(Idle, EmptyDraft), events);
  }

  /** A step that does not fail keeps the current specialty at the head of the pending list. */
  lemma StepKeepsOnHead(s: Snapshot, e: Event)
    requires Inv(s) && OnHead(s)
    requires !Step(s, e).effect.Failed?
    ensures OnHead(Step(s, e).session)
  {
    if e.Text? && !IsStartCommand(e.text) && e.text != RegistrationButton && s.state == ChoosingLanguage && e.text == Done {
      var rest := RemoveFirst(s.data.specialties, s.data.currentSpecialty.value).value;
      assert rest == s.data.specialties[1..];
    }
  }

  /** Every step of the sequence succeeds. */
  predicate NoFailure(s: Snapshot, events: seq<Event>)
    decreases |events|
  {
    events == [] || (!Step(s, events[0]).effect.Failed? && NoFailure(Step(s, events[0]).session, events[1..]))
  }

  /** Along a sequence of messages none of which fails, the current specialty stays the head of the pending list. */
  lemma {:induction false} RunKeepsOnHead(s: Snapshot, events: seq<Event>)
    requires Inv(s) && OnHead(s) && NoFailure(s, events)
    ensures OnHead(Run(s, events).session)
    decreases |events|
  {
    if events != [] {
      StepKeepsOnHead(s, events[0]);
      StepKeepsInv(s, events[0]);
      if |events| > 1 {
        RunKeepsOnHead(Step(s, events[0]).session, events[1..]);
      }
    }
  }

  // ---------------------------------------------------------------- caption

  predicate SingleLine(s: string) {
    '\n' !in s
  }

  /** No field the caption shows holds a line break. */
  predicate NoLineBreaks(d: Draft) {
    && SingleLine(Shown(d.name)) && SingleLine(Shown(d.university)) && SingleLine(Shown(d.faculty))
    && SingleLine(OrNotGiven(d.githubLink)) && SingleLine(OrNotGiven(d.resumeLink)) && SingleLine(OrNotGiven(d.aboutMe))
    && forall i :: 0 <= i < |d.languages| ==>
         SingleLine(d.languages[i].0) && forall j :: 0 <= j < |d.languages[i].1| ==> SingleLine(d.languages[i].1[j])
  }

  /** One line per specialty that has languages, in the order the specialties were first given one; a blank line if none. */
  function SpecialtyLines(m: Entries): seq<string> {
    if m == [] then [""] else LanguageLines(m)
  }

  lemma {:induction false} JoinSingleLine(sep: string, parts: seq<string>)
    requires SingleLine(sep) && forall i :: 0 <= i < |parts| ==> SingleLine(parts[i])
    ensures SingleLine(Join(sep, parts))
  {
    if |parts| > 1 {
      JoinSingleLine(sep, parts[1..]);
    }
  }

  lemma CaptionShape(d: Draft)
    ensures Caption(d)
      == Join("\n", HeaderLines(d)) + "\n" + Join("\n", LanguageLines(d.languages)) + "\n" + Join("\n", FooterLines(d))
  {
    var h, f := HeaderLines(d), FooterLines(d);
    var block := Join("\n", LanguageLines(d.languages));
    assert h + [block] + f == h + ([block] + f);
    JoinAppend("\n", h, [block] + f);
    JoinCons("\n", block, f);
  }

  lemma {:induction false} SplitOnThree(c: char, x: string, y: string, z: string)
    ensures SplitOn(c, x + [c] + y + [c] + z) == SplitOn(c, x) + SplitOn(c, y) + SplitOn(c, z)
  {
    SplitOnConcat(c, x, y + [c] + z);
    SplitOnConcat(c, y, z);
    assert x + [c] + y + [c] + z == x + [c] + (y + [c] + z);
  }

  lemma HeaderSingleLines(d: Draft)
    requires NoLineBreaks(d)
    ensures forall i :: 0 <= i < |HeaderLines(d)| ==> SingleLine(HeaderLines(d)[i])
  {
    assert SingleLine(ShownAge(d.age));
  }

  lemma FooterSingleLines(d: Draft)
    requires NoLineBreaks(d)
    ensures forall i :: 0 <= i < |FooterLines(d)| ==> SingleLine(FooterLines(d)[i])
  {
  }

  lemma SpecialtyBlockLines(m: Entries)
    requires forall i :: 0 <= i < |m| ==>
      SingleLine(m[i].0) && forall j :: 0 <= j < |m[i].1| ==> SingleLine(m[i].1[j])
    ensures SplitOn('\n', Join("\n", LanguageLines(m))) == SpecialtyLines(m)
  {
    var lines := LanguageLines(m);
    if m == [] {
      assert SplitOn('\n', "") == [""];
    } else {
      forall i | 0 <= i < |lines|
        ensures SingleLine(lines[i])
      {
        JoinSingleLine(", ", m[i].1);
      }
      SplitOnJoin('\n', lines);
    }
  }

  /**
   * Read line by line, the caption is the header (name, age, university, faculty), one line
   * "specialty: language, language" per specialty that has languages, in insertion order, then a
   * blank line and the three optional fields, each "Не указано" when it was skipped.
   */
  lemma CaptionLines(d: Draft)
    requires NoLineBreaks(d)
    ensures SplitOn('\n', Caption(d)) == HeaderLines(d) + SpecialtyLines(d.languages) + FooterLines(d)
  {
    CaptionShape(d);
    HeaderSingleLines(d);
    FooterSingleLines(d);
    SplitOnJoin('\n', HeaderLines(d));
    SplitOnJoin('\n', FooterLines(d));
    SpecialtyBlockLines(d.languages);
    SplitOnThree('\n', Join("\n", HeaderLines(d)), Join("\n", LanguageLines(d.languages)), Join("\n", FooterLines(d)));
  }

  /** Skipping all three optional fields shows "Не указано" on each of the caption's last three lines. */
  lemma SkippedFieldsNotGiven(d: Draft)
    requires d.githubLink == None && d.resumeLink == None && d.aboutMe == None
    ensures var lines := SplitOn('\n', Caption(d));
      |lines| >= 3 && lines[|lines| - 3..] == ["GitHub: Не указано", "Резюме: Не указано", "О себе: Не указано"]
  {
    var f := FooterLines(d);
    assert f[1] == "GitHub: Не указано";
    assert f[2] == "Резюме: Не указано";
    assert f[3] == "О себе: Не указано";
    var above := Join("\n", HeaderLines(d)) + "\n" + Join("\n", LanguageLines(d.languages));
    CaptionShape(d);
    assert Caption(d) == above + ['\n'] + Join("\n", f);
    SplitOnConcat('\n', above, Join("\n", f));
    assert forall i :: 0 <= i < |f| ==> '\n' !in f[i];
    SplitOnJoin('\n', f);
    var lines := SplitOn('\n', Caption(d));
    assert lines == SplitOn('\n', above) + f;
    assert lines[|lines| - 3..] == f[1..];
  }


  // ---------------------------------------------------------------- a whole registration

  /** When each message leads to the next listed conversation, a run ends where the last message leads. */
  lemma {:induction false} RunThrough(states: seq<Snapshot>, events: seq<Event>)
    requires |events| > 0 && |states| == |events|
    requires forall i :: 0 <= i < |events| - 1 ==> Step(states[i], events[i]).session == states[i + 1]
    ensures Run(states[0], events) == Step(states[|events| - 1], events[|events| - 1])
    decreases |events|
  {
    if |events| > 1 {
      RunThrough(states[1..], events[1..]);
    }
  }

  function ScenarioEvents(p: string): seq<Event> {
    [Text("Registration"), Text("Программист"), Text("Иван"), Text("25"), Text("НИУ ВШЭ"), Text("ФКН"),
     Photo([p]), Text("back-разработка"), Text("Готово ✅"), Text("Python"), Text("Готово ✅"),
     Text("Пропустить"), Text("Пропустить"), Text("Пропустить")]
  }

  /** The data after the profile answers (name, age, university, faculty, photo). */
  function ScenarioProfile(p: string): Draft {
    EmptyDraft.(name := Some("Иван"), age := Some(25), university := Some("НИУ ВШЭ"), faculty := Some("ФКН"),
                photoId := Some(p))
  }

  function ScenarioStates(p: string): seq<Snapshot> {
    var d := ScenarioProfile(p);
    var chosen := d.(specialties := ["back-разработка"], currentSpecialty := Some("back-разработка"));
    var done := chosen.(specialties := [], languages := [("back-разработка", ["Python"])]);
    [Snapshot(Idle, EmptyDraft),
     Snapshot(ChoosingRole, EmptyDraft),
     Snapshot(ProgrammerName, EmptyDraft),
     Snapshot(ProgrammerAge, EmptyDraft.(name := Some("Иван"))),
     Snapshot(ProgrammerUniversity, EmptyDraft.(name := Some("Иван"), age := Some(25))),
     Snapshot(ProgrammerFaculty, EmptyDraft.(name := Some("Иван"), age := Some(25), university := Some("НИУ ВШЭ"))),
     Snapshot(ProgrammerPhoto, d.(photoId := None)),
     Snapshot(ProgrammerSpecialty, d),
     Snapshot(ProgrammerSpecialty, d.(specialties := ["back-разработка"])),
     Snapshot(ChoosingLanguage, chosen),
     Snapshot(ChoosingLanguage, chosen.(languages := [("back-разработка", ["Python"])])),
     Snapshot(GithubLink, done),
     Snapshot(ResumeLink, done),
     Snapshot(AboutMe, done)]
  }

  lemma ScenarioProfileStep(p: string, i: nat)
    requires i < 7
    ensures Step(ScenarioStates(p)[i], ScenarioEvents(p)[i]).session == ScenarioStates(p)[i + 1]
  {
    if i == 3 {
      assert IsDigits("25");
      assert "25"[..1] == "2" && ParseNat("2") == 2;
      assert ParseNat("25") == 25;
    }
  }

  lemma ScenarioChoiceStep(p: string, i: nat)
    requires 7 <= i < 13
    ensures Step(ScenarioStates(p)[i], ScenarioEvents(p)[i]).session == ScenarioStates(p)[i + 1]
  {
  }

  lemma ScenarioCaption(p: string)
    ensures SplitOn('\n', Caption(ScenarioStates(p)[13].data)) == [
        "Регистрация завершена!", "Вы - Программист.", "Имя: Иван", "Возраст: 25", "Университет: НИУ ВШЭ",
        "Факультет: ФКН", "Специализации и языки:", "back-разработка: Python", "",
        "GitHub: Не указано", "Резюме: Не указано", "О себе: Не указано"]
  {
    var d := ScenarioStates(p)[13].data;
    assert NoLineBreaks(d);
    CaptionLines(d);
    assert ShownAge(d.age) == "25";
    assert "Имя: " + "Иван" == "Имя: Иван";
    assert "Возраст: " + "25" == "Возраст: 25";
    assert "Университет: " + "НИУ ВШЭ" == "Университет: НИУ ВШЭ";
    assert "Факультет: " + "ФКН" == "Факультет: ФКН";
    assert "GitHub: " + NotGiven == "GitHub: Не указано";
    assert "Резюме: " + NotGiven == "Резюме: Не указано";
    assert "О себе: " + NotGiven == "О себе: Не указано";
    assert HeaderLines(d) == ["Регистрация завершена!", "Вы - Программист.", "Имя: Иван", "Возраст: 25",
                              "Университет: НИУ ВШЭ", "Факультет: ФКН", "Специализации и языки:"];
    assert LanguageLine(("back-разработка", ["Python"])) == "back-разработка: Python";
    assert SpecialtyLines(d.languages) == ["back-разработка: Python"];
    assert FooterLines(d) == ["", "GitHub: Не указано", "Резюме: Не указано", "О себе: Не указано"];
  }

  /**
   * A programmer who registers as Иван, 25, НИУ ВШЭ, ФКН, sends photo `p`, picks back-end
   * development with Python and skips the three optional fields receives the photo back with
   * a caption reading, line by line, as below; the conversation is then cleared.
   */
  lemma WholeRegistration(p: string)
    ensures var o := Run(Snapshot(Idle, EmptyDraft), ScenarioEvents(p));
      && o.session == Snapshot(Idle, EmptyDraft)
      && o.effect.SendPhoto? && o.effect.photo == Some(p)
      && SplitOn('\n', o.effect.caption) == [
        "Регистрация завершена!", "Вы - Программист.", "Имя: Иван", "Возраст: 25", "Университет: НИУ ВШЭ",
        "Факультет: ФКН", "Специализации и языки:", "back-разработка: Python", "",
        "GitHub: Не указано", "Резюме: Не указано", "О себе: Не указано"]
  {
    var states, events := ScenarioStates(p), ScenarioEvents(p);
    forall i | 0 <= i < |events| - 1
      ensures Step(states[i], events[i]).session == states[i + 1]
    {
      if i < 7 {
        ScenarioProfileStep(p, i);
      } else {
        ScenarioChoiceStep(p, i);
      }
    }
    RunThrough(states[..14], events);
    AboutMeStep(states[13], "Пропустить");
    ScenarioCaption(p);
  }
}
