/**
 * The programmer registration dialogue of the bot, as values: the states of `Registration`,
 * the data accumulated across turns, one function per message handler, the final caption,
 * and `Step`, which routes one inbound message the way the dispatcher does.
 */
module Registration {
  import opened Wrappers
  import opened Text
  import opened Lists
  import opened LanguageMap

  /** The states of the `Registration` group; `Idle` is "no state set" (before the dialogue and after `clear`). */
  datatype State =
    | Idle
    | ChoosingRole
    | ProgrammerName
    | ProgrammerAge
    | ProgrammerUniversity
    | CustomUniversity
    | ProgrammerFaculty
    | ProgrammerPhoto
    | ProgrammerSpecialty
    | ChoosingLanguage
    | GithubLink
    | ResumeLink
    | AboutMe
    | FounderName
    | FounderProject

  /**
   * The data dictionary of the conversation. A missing key and a stored `None` read alike
   * (`None`); `specialties` and `languages` read as empty when missing.
   */
  datatype Draft = Draft(
    name: Option<string>,
    age: Option<nat>,
    university: Option<string>,
    faculty: Option<string>,
    photoId: Option<string>,
    specialties: seq<string>,
    currentSpecialty: Option<string>,
    languages: Entries,
    githubLink: Option<string>,
    resumeLink: Option<string>,
    aboutMe: Option<string>)

  const EmptyDraft := Draft(None, None, None, None, None, [], None, [], None, None, None)

  /** One user's conversation: its current state and its data. */
  datatype Snapshot = Snapshot(state: State, data: Draft)

  const Initial := Snapshot(Idle, EmptyDraft)

  /** The file ids of a photo's sizes, from the smallest to the largest; a photo always has at least one. */
  type PhotoSizes = sizes: seq<string> | sizes != [] witness ["photo"]

  /** An inbound message: text, or a photo. */
  datatype Event = Text(text: string) | Photo(sizes: PhotoSizes)

  /** The Python exception a handler raises; the session keeps whatever the handler stored before it. */
  datatype Error =
    | KeyError(key: string)    // `languages_by_specialty[specialty]` for a specialty the table lacks
    | ValueError               // `specialties.remove(current)` when the current specialty is not pending
    | AttributeError           // `None.isdigit()`: a photo sent where an age is expected
    | TextMissing              // a photo sent where the handler stores its text (see README, Left out)
    | NoCurrentSpecialty       // a language chosen with no current specialty (never reached, see Inv)

  /** What the bot sends back. */
  datatype Effect =
    | Silent                                        // no handler matched, or a handler sent nothing
    | Reply(text: string)                           // a reply without a new keyboard
    | Keyboard(text: string, options: seq<string>)  // a reply offering these buttons
    | SendPhoto(photo: Option<string>, caption: string)
    | Failed(error: Error)

  datatype Outcome = Outcome(session: Snapshot, effect: Effect)

  // Button labels and fixed answers.
  const Done := "Готово ✅"
  const Skip := "Пропустить"
  const NotGiven := "Не указано"
  const Programmer := "Программист"
  const Founder := "Фаундер"
  const Hse := "НИУ ВШЭ"
  const NoUniversity := "моего вуза нет в списке"
  const RegistrationButton := "Registration"
  const MainMenu := ["Start", RegistrationButton]
  const SpecialtyOptions := ["front-разработка", "back-разработка", "ML-разработка"]

  // Replies.
  const Greeting := "Привет! Я твой бот и готов работать."
  const AskRole := "Выберите вашу роль:"
  const ProgrammerChosen := "Вы выбрали Программист. Пожалуйста, введите ваше имя:"
  const FounderChosen := "Вы выбрали Фаундер. Пожалуйста, введите ваше имя:"
  const AskRoleAgain := "Пожалуйста, выберите одну из предложенных ролей: Программист или Фаундер."
  const AskAge := "Пожалуйста, введите ваш возраст:"
  const AskAgeAgain := "Пожалуйста, введите числовое значение возраста."
  const AskUniversity := "Пожалуйста, выберите ваш университет:"
  const AskFaculty := "Пожалуйста, укажите ваш факультет:"
  const BetaOnly := "Сейчас мы находимся в beta режиме, пока продукт доступен только для студентов НИУ ВШЭ, "
    + "но скоро мы откроем доступ и для вашего вуза! Спасибо за понимание!"
  const AskUniversityAgain := "Пожалуйста, выберите один из предложенных вариантов."
  const AskPhoto := "Пожалуйста, отправьте ваше фото для профиля:"
  const AskSpecialties := "Выберите одну или несколько специальностей (нажмите 'Готово ✅', когда закончите):"
  const AskGithub := "Введите ссылку на GitHub или нажмите 'Пропустить'"
  const AskResume := "Введите ссылку на резюме или нажмите 'Пропустить'"
  const AskAboutMe := "Расскажите немного о себе или нажмите 'Пропустить'"

  function SpecialtyAdded(text: string): string {
    "Специальность '" + text + "' добавлена. Выберите еще или нажмите 'Готово ✅'."
  }

  function AskLanguages(specialty: string): string {
    "Выберите языки для направления '" + specialty + "' (нажмите 'Готово ✅', когда закончите):"
  }

  function LanguageAdded(text: string): string {
    "Язык '" + text + "' добавлен. Выберите еще или нажмите 'Готово ✅'."
  }

  /** `languages_by_specialty[specialty]`; `None` stands for the KeyError of an unknown specialty. */
  function LanguagesFor(specialty: string): (langs: Option<seq<string>>)
    ensures langs.Some? <==> specialty in SpecialtyOptions
  {
    if specialty == "front-разработка" then Some(["JavaScript", "TypeScript", "HTML", "CSS", "React", "Vue.js"])
    else if specialty == "back-разработка" then Some(["Python", "Java", "C#", "Node.js", "PHP", "Go", "Ruby"])
    else if specialty == "ML-разработка" then Some(["Python", "R", "MATLAB", "Julia", "Scala"])
    else None
  }

  /**
   * Whether the text is the `/start` command: its first word is `/start` (or `/start@`, with an
   * empty mention), alone or followed by whitespace and arguments.
   */
  predicate IsStartCommand(t: string) {
    && |t| >= 6 && t[0] == '/' && t[1] == 's' && t[2] == 't' && t[3] == 'a' && t[4] == 'r' && t[5] == 't'
    && (|t| == 6 || IsSpace(t[6]) || (t[6] == '@' && (|t| == 7 || IsSpace(t[7]))))
  }

  // ---------------------------------------------------------------- caption

  /** `f"{x}"` for a value that may be `None`. */
  function Shown(x: Option<string>): string {
    match x
    case Some(s) => s
    case None => "None"
  }

  function ShownAge(age: Option<nat>): string {
    match age
    case Some(n) => NatToString(n)
    case None => "None"
  }

  /** `data.get(key, "Не указано")` for an optional field. */
  function OrNotGiven(x: Option<string>): string {
    x.GetOr(NotGiven)
  }

  /** `f"{spec}: {', '.join(langs)}"`. */
  function LanguageLine(entry: (string, seq<string>)): string {
    entry.0 + ": " + Join(", ", entry.1)
  }

  function LanguageLines(m: Entries): (lines: seq<string>)
    ensures |lines| == |m|
    ensures forall i :: 0 <= i < |m| ==> lines[i] == LanguageLine(m[i])
  {
    if m == [] then [] else [LanguageLine(m[0])] + LanguageLines(m[1..])
  }

  /** The caption's lines above the specialties: name, age, university and faculty. */
  function HeaderLines(d: Draft): seq<string> {
    ["Регистрация завершена!", "Вы - Программист.", "Имя: " + Shown(d.name), "Возраст: " + ShownAge(d.age),
     "Университет: " + Shown(d.university), "Факультет: " + Shown(d.faculty), "Специализации и языки:"]
  }

  /** The caption's lines below the specialties: a blank line and the three optional fields. */
  function FooterLines(d: Draft): seq<string> {
    ["", "GitHub: " + OrNotGiven(d.githubLink), "Резюме: " + OrNotGiven(d.resumeLink), "О себе: " + OrNotGiven(d.aboutMe)]
  }

  /**
   * The caption sent with the profile photo when registration completes: the lines of the
   * f-string joined by line breaks, the specialties' lines (joined the same way) between
   * the header and the footer.
   */
  function Caption(d: Draft): string {
    Join("\n", HeaderLines(d) + [Join("\n", LanguageLines(d.languages))] + FooterLines(d))
  }

  // ---------------------------------------------------------------- handlers

  /** `start_command`: a greeting with the main menu; the conversation is not touched. */
  function StartCommand(s: Snapshot): Outcome {
    Outcome(s, Keyboard(Greeting, MainMenu))
  }

  /** `registration_from_menu`: from any state, ask for the role; the data is kept. */
  function RegistrationFromMenu(s: Snapshot): Outcome {
    Outcome(Snapshot(ChoosingRole, s.data), Keyboard(AskRole, [Programmer, Founder]))
  }

  /** `choose_role`; `text` is `None` for a photo. */
  function ChooseRole(s: Snapshot, text: Option<string>): Outcome {
    if text == Some(Programmer) then
      Outcome(Snapshot(ProgrammerName, s.data), Reply(ProgrammerChosen))
    else if text == Some(Founder) then
      Outcome(Snapshot(FounderName, s.data), Reply(FounderChosen))
    else
      Outcome(s, Reply(AskRoleAgain))
  }

  /** `process_programmer_name`: stores the text (`None` for a photo) as the name. */
  function ProcessProgrammerName(s: Snapshot, text: Option<string>): Outcome {
    Outcome(Snapshot(ProgrammerAge, s.data.(name := text)), Reply(AskAge))
  }

  /** `process_programmer_age`. */
  function ProcessProgrammerAge(s: Snapshot, text: string): Outcome {
    if !IsDigits(text) then
      Outcome(s, Reply(AskAgeAgain))
    else
      Outcome(Snapshot(ProgrammerUniversity, s.data.(age := Some(ParseNat(text)))),
              Keyboard(AskUniversity, [Hse, NoUniversity]))
  }

  /** `process_programmer_university`; `text` is `None` for a photo. */
  function ProcessProgrammerUniversity(s: Snapshot, text: Option<string>): Outcome {
    if text == Some(Hse) then
      Outcome(Snapshot(ProgrammerFaculty, s.data.(university := Some(Hse))), Reply(AskFaculty))
    else if text == Some(NoUniversity) then
      Outcome(Initial, Reply(BetaOnly))
    else
      Outcome(s, Reply(AskUniversityAgain))
  }

  /** `process_programmer_faculty`: stores the text (`None` for a photo) as the faculty. */
  function ProcessProgrammerFaculty(s: Snapshot, text: Option<string>): Outcome {
    Outcome(Snapshot(ProgrammerPhoto, s.data.(faculty := text)), Reply(AskPhoto))
  }

  /** `process_programmer_photo`: keeps the file id of the largest (last) size. */
  function ProcessProgrammerPhoto(s: Snapshot, sizes: PhotoSizes): Outcome {
    Outcome(Snapshot(ProgrammerSpecialty, s.data.(photoId := Some(sizes[|sizes| - 1]))),
            Keyboard(AskSpecialties, SpecialtyOptions + [Done]))
  }

  /** `process_programmer_specialty`: any other text is added to the pending specialties once. */
  function ProcessProgrammerSpecialty(s: Snapshot, text: string): Outcome {
    if text == Done then
      PromptForLanguages(s, s.data.specialties)
    else
      Outcome(Snapshot(s.state, s.data.(specialties := AppendIfAbsent(s.data.specialties, text))),
              Reply(SpecialtyAdded(text)))
  }

  /** `prompt_for_languages`: offers the languages of the first pending specialty; does nothing when none is pending. */
  function PromptForLanguages(s: Snapshot, pending: seq<string>): Outcome {
    if pending == [] then
      Outcome(s, Silent)
    else
      match LanguagesFor(pending[0])
      case None => Outcome(s, Failed(KeyError(pending[0])))
      case Some(langs) =>
        Outcome(Snapshot(ChoosingLanguage, s.data.(currentSpecialty := Some(pending[0]))),
                Keyboard(AskLanguages(pending[0]),
                         langs + [Done]))
  }

  /** `process_choosing_language`. */
  function ProcessChoosingLanguage(s: Snapshot, text: string): Outcome {
    match s.data.currentSpecialty
    case None =>
      // `specialties.remove(None)` raises; a language would be filed under `None` (never reached, see Inv)
      Outcome(s, Failed(if text == Done then ValueError else NoCurrentSpecialty))
    case Some(current) =>
      if text == Done then
        match RemoveFirst(s.data.specialties, current)
        case None => Outcome(s, Failed(ValueError))
        case Some(rest) =>
          var s' := Snapshot(s.state, s.data.(specialties := rest));
          if rest != [] then
            PromptForLanguages(s', rest)
          else
            Outcome(Snapshot(GithubLink, s'.data), Keyboard(AskGithub, [Skip]))
      else
        Outcome(Snapshot(s.state, s.data.(languages := SetDefaultAppend(s.data.languages, current, text))),
                Reply(LanguageAdded(text)))
  }

  /** `process_github_link`. */
  function ProcessGithubLink(s: Snapshot, text: string): Outcome {
    var data := if text != Skip then s.data.(githubLink := Some(text)) else s.data;
    Outcome(Snapshot(ResumeLink, data), Keyboard(AskResume, [Skip]))
  }

  /** `process_resume_link`. */
  function ProcessResumeLink(s: Snapshot, text: string): Outcome {
    var data := if text != Skip then s.data.(resumeLink := Some(text)) else s.data;
    Outcome(Snapshot(AboutMe, data), Keyboard(AskAboutMe, [Skip]))
  }

  /** `process_about_me`: sends the photo with the caption, then clears the conversation. */
  function ProcessAboutMe(s: Snapshot, text: string): Outcome {
    var data := if text != Skip then s.data.(aboutMe := Some(text)) else s.data;
    Outcome(Initial, SendPhoto(data.photoId, Caption(data)))
  }

  // ---------------------------------------------------------------- routing

  /** The state handler that receives a text message. */
  function OnText(s: Snapshot, t: string): Outcome {
    match s.state
    case ChoosingRole => ChooseRole(s, Some(t))
    case ProgrammerName => ProcessProgrammerName(s, Some(t))
    case ProgrammerAge => ProcessProgrammerAge(s, t)
    case ProgrammerUniversity => ProcessProgrammerUniversity(s, Some(t))
    case ProgrammerFaculty => ProcessProgrammerFaculty(s, Some(t))
    case ProgrammerSpecialty => ProcessProgrammerSpecialty(s, t)
    case ChoosingLanguage => ProcessChoosingLanguage(s, t)
    case GithubLink => ProcessGithubLink(s, t)
    case ResumeLink => ProcessResumeLink(s, t)
    case AboutMe => ProcessAboutMe(s, t)
    case _ => Outcome(s, Silent)
  }

  /** The state handler that receives a photo in a state other than `ProgrammerPhoto`. */
  function OnTextless(s: Snapshot): Outcome {
    match s.state
    case ChoosingRole => ChooseRole(s, None)
    case ProgrammerName => ProcessProgrammerName(s, None)
    case ProgrammerAge => Outcome(s, Failed(AttributeError))
    case ProgrammerUniversity => ProcessProgrammerUniversity(s, None)
    case ProgrammerFaculty => ProcessProgrammerFaculty(s, None)
    case ProgrammerSpecialty => Outcome(s, Failed(TextMissing))
    case ChoosingLanguage => Outcome(s, Failed(TextMissing))
    case GithubLink => Outcome(s, Failed(TextMissing))
    case ResumeLink => Outcome(s, Failed(TextMissing))
    case AboutMe => Outcome(s, Failed(TextMissing))
    case _ => Outcome(s, Silent)
  }

  /**
   * One inbound message, routed in registration order: the `/start` command, then the
   * "Registration" button in any state, then the handler of the current state (the photo
   * handler only takes photos).
   */
  function Step(s: Snapshot, e: Event): Outcome {
    match e
    case Text(t) =>
      if IsStartCommand(t) then StartCommand(s)
      else if t == RegistrationButton then RegistrationFromMenu(s)
      else OnText(s, t)
    case Photo(sizes) =>
      if s.state == ProgrammerPhoto then ProcessProgrammerPhoto(s, sizes) else OnTextless(s)
  }

  /** The conversation after a sequence of messages, with what the bot sent for the last one. */
  function Run(s: Snapshot, events: seq<Event>): Outcome
    decreases |events|
  {
    if events == [] then Outcome(s, Silent)
    else if |events| == 1 then Step(s, events[0])
    else Run(Step(s, events[0]).session, events[1..])
  }
}
