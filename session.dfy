/**
 * The handlers as the bot runs them: one user's conversation held in an object whose state
 * and data the handlers update in place, each method proved to do what the matching
 * function of `Registration` describes.
 */
module Bot {
  import opened Wrappers
  import opened Text
  import opened Lists
  import opened LanguageMap
  import opened Registration

  /** The FSM context of one user: the current state and the data dictionary. */
  class Session {
    var state: State
    var data: Draft

    /** A conversation not yet started. */
    constructor ()
      ensures View() == Snapshot(Idle, EmptyDraft)
    {
      state := Idle;
      data := EmptyDraft;
    }

    function View(): Snapshot
      reads this
    {
      Snapshot(state, data)
    }

    /** `state.clear()`: no state and no data. */
    method Clear()
      modifies this
      ensures View() == Snapshot(Idle, EmptyDraft)
    {
      state := Idle;
      data := EmptyDraft;
    }

    /** `start_command`: greets and changes nothing. */
    method StartCommand() returns (effect: Effect)
      ensures Outcome(View(), effect) == Registration.StartCommand(View())
    {
      effect := Keyboard(Greeting, MainMenu);
    }

    /** `registration_from_menu`. */
    method RegistrationFromMenu() returns (effect: Effect)
      modifies this
      ensures Outcome(View(), effect) == Registration.RegistrationFromMenu(old(View()))
    {
      effect := Keyboard(AskRole, [Programmer, Founder]);
      state := ChoosingRole;
    }

    /** `choose_role`. */
    method ChooseRole(text: Option<string>) returns (effect: Effect)
      modifies this
      ensures Outcome(View(), effect) == Registration.ChooseRole(old(View()), text)
    {
      if text == Some(Programmer) {
        effect := Reply(ProgrammerChosen);
        state := ProgrammerName;
      } else if text == Some(Founder) {
        effect := Reply(FounderChosen);
        state := FounderName;
      } else {
        effect := Reply(AskRoleAgain);
      }
    }

    /** `process_programmer_name`. */
    method ProcessProgrammerName(text: Option<string>) returns (effect: Effect)
      modifies this
      ensures Outcome(View(), effect) == Registration.ProcessProgrammerName(old(View()), text)
    {
      data := data.(name := text);
      effect := Reply(AskAge);
      state := ProgrammerAge;
    }

    /** `process_programmer_age`. */
    method ProcessProgrammerAge(text: string) returns (effect: Effect)
      modifies this
      ensures Outcome(View(), effect) == Registration.ProcessProgrammerAge(old(View()), text)
    {
      if !IsDigits(text) {
        effect := Reply(AskAgeAgain);
        return;
      }
      data := data.(age := Some(ParseNat(text)));
      effect := Keyboard(AskUniversity, [Hse, NoUniversity]);
      state := ProgrammerUniversity;
    }

    /** `process_programmer_university`. */
    method ProcessProgrammerUniversity(text: Option<string>) returns (effect: Effect)
      modifies this
      ensures Outcome(View(), effect) == Registration.ProcessProgrammerUniversity(old(View()), text)
    {
      if text == Some(Hse) {
        data := data.(university := Some(Hse));
        effect := Reply(AskFaculty);
        state := ProgrammerFaculty;
      } else if text == Some(NoUniversity) {
        effect := Reply(BetaOnly);
        Clear();
      } else {
        effect := Reply(AskUniversityAgain);
      }
    }

    /** `process_programmer_faculty`. */
    method ProcessProgrammerFaculty(text: Option<string>) returns (effect: Effect)
      modifies this
      ensures Outcome(View(), effect) == Registration.ProcessProgrammerFaculty(old(View()), text)
    {
      data := data.(faculty := text);
      effect := Reply(AskPhoto);
      state := ProgrammerPhoto;
    }

    /** `process_programmer_photo`. */
    method ProcessProgrammerPhoto(sizes: PhotoSizes) returns (effect: Effect)
      modifies this
      ensures Outcome(View(), effect) == Registration.ProcessProgrammerPhoto(old(View()), sizes)
    {
      var photoId := sizes[|sizes| - 1];
      data := data.(photoId := Some(photoId));
      effect := Keyboard(AskSpecialties, SpecialtyOptions + [Done]);
      state := ProgrammerSpecialty;
    }

    /** `process_programmer_specialty`. */
    method ProcessProgrammerSpecialty(text: string) returns (effect: Effect)
      modifies this
      ensures Outcome(View(), effect) == Registration.ProcessProgrammerSpecialty(old(View()), text)
    {
      var specialties := data.specialties;
      if text == Done {
        effect := PromptForLanguages(specialties);
      } else {
        if text !in specialties {
          specialties := specialties + [text];
          data := data.(specialties := specialties);
        }
        effect := Reply(SpecialtyAdded(text));
      }
    }

    /** `prompt_for_languages`. */
    method PromptForLanguages(specialties: seq<string>) returns (effect: Effect)
      modifies this
      ensures Outcome(View(), effect) == Registration.PromptForLanguages(old(View()), specialties)
    {
      if specialties == [] {
        effect := Silent;
        return;
      }
      var specialty := specialties[0];
      var languages := LanguagesFor(specialty);
      if languages.None? {
        effect := Failed(KeyError(specialty));
        return;
      }
      effect := Keyboard(AskLanguages(specialty), languages.value + [Done]);
      data := data.(currentSpecialty := Some(specialty));
      state := ChoosingLanguage;
    }

    /** `process_choosing_language`. */
    method ProcessChoosingLanguage(text: string) returns (effect: Effect)
      modifies this
      ensures Outcome(View(), effect) == Registration.ProcessChoosingLanguage(old(View()), text)
    {
      var current := data.currentSpecialty;
      var languages := data.languages;
      if text == Done {
        if current.None? {
          effect := Failed(ValueError);
          return;
        }
        var remaining := RemoveFirst(data.specialties, current.value);
        if remaining.None? {
          effect := Failed(ValueError);
          return;
        }
        data := data.(specialties := remaining.value, languages := languages);
        if remaining.value != [] {
          effect := PromptForLanguages(remaining.value);
        } else {
          effect := Keyboard(AskGithub, [Skip]);
          state := GithubLink;
        }
      } else {
        if current.None? {
          effect := Failed(NoCurrentSpecialty);
          return;
        }
        languages := SetDefaultAppend(languages, current.value, text);
        data := data.(languages := languages);
        effect := Reply(LanguageAdded(text));
      }
    }

    /** `process_github_link`. */
    method ProcessGithubLink(text: string) returns (effect: Effect)
      modifies this
      ensures Outcome(View(), effect) == Registration.ProcessGithubLink(old(View()), text)
    {
      if text != Skip {
        data := data.(githubLink := Some(text));
      }
      effect := Keyboard(AskResume, [Skip]);
      state := ResumeLink;
    }

    /** `process_resume_link`. */
    method ProcessResumeLink(text: string) returns (effect: Effect)
      modifies this
      ensures Outcome(View(), effect) == Registration.ProcessResumeLink(old(View()), text)
    {
      if text != Skip {
        data := data.(resumeLink := Some(text));
      }
      effect := Keyboard(AskAboutMe, [Skip]);
      state := AboutMe;
    }

    /** `process_about_me`: builds the caption from the stored data, sends it, then clears. */
    method ProcessAboutMe(text: string) returns (effect: Effect)
      modifies this
      ensures Outcome(View(), effect) == Registration.ProcessAboutMe(old(View()), text)
    {
      if text != Skip {
        data := data.(aboutMe := Some(text));
      }
      effect := SendPhoto(data.photoId, Caption(data));
      Clear();
    }

    /** Routes one message to its handler, as `Step` describes. */
    method Dispatch(e: Event) returns (effect: Effect)
      modifies this
      ensures Outcome(View(), effect) == Step(old(View()), e)
    {
      match e
      case Text(t) =>
        if IsStartCommand(t) {
          effect := StartCommand();
        } else if t == RegistrationButton {
          effect := RegistrationFromMenu();
        } else {
          effect := DispatchText(t);
        }
      case Photo(sizes) =>
        if state == ProgrammerPhoto {
          effect := ProcessProgrammerPhoto(sizes);
        } else {
          effect := DispatchTextless();
        }
    }

    /** The handler of the current state for a text message. */
    method DispatchText(t: string) returns (effect: Effect)
      modifies this
      ensures Outcome(View(), effect) == OnText(old(View()), t)
    {
      match state
      case ChoosingRole => effect := ChooseRole(Some(t));
      case ProgrammerName => effect := ProcessProgrammerName(Some(t));
      case ProgrammerAge => effect := ProcessProgrammerAge(t);
      case ProgrammerUniversity => effect := ProcessProgrammerUniversity(Some(t));
      case ProgrammerFaculty => effect := ProcessProgrammerFaculty(Some(t));
      case ProgrammerSpecialty => effect := ProcessProgrammerSpecialty(t);
      case ChoosingLanguage => effect := ProcessChoosingLanguage(t);
      case GithubLink => effect := ProcessGithubLink(t);
      case ResumeLink => effect := ProcessResumeLink(t);
      case AboutMe => effect := ProcessAboutMe(t);
      case _ => effect := Silent;
    }

    /** The handler of the current state for a photo, outside `programmer_photo`. */
    method DispatchTextless() returns (effect: Effect)
      modifies this
      ensures Outcome(View(), effect) == OnTextless(old(View()))
    {
      match state
      case ChoosingRole => effect := ChooseRole(None);
      case ProgrammerName => effect := ProcessProgrammerName(None);
      case ProgrammerAge => effect := Failed(AttributeError);
      case ProgrammerUniversity => effect := ProcessProgrammerUniversity(None);
      case ProgrammerFaculty => effect := ProcessProgrammerFaculty(None);
      case ProgrammerSpecialty => effect := Failed(TextMissing);
      case ChoosingLanguage => effect := Failed(TextMissing);
      case GithubLink => effect := Failed(TextMissing);
      case ResumeLink => effect := Failed(TextMissing);
      case AboutMe => effect := Failed(TextMissing);
      case _ => effect := Silent;
    }
  }

  /**
   * The dispatcher's polling loop for one user: each message goes to `Dispatch` in turn; the
   * reply to every message and the final session are those `Run` gives for the messages so far.
   */
  method Converse(session: Session, events: seq<Event>) returns (effects: seq<Effect>)
    requires session.View() == Snapshot(Idle, EmptyDraft)
    modifies session
    ensures |effects| == |events|
    ensures forall j :: 0 <= j < |events| ==> effects[j] == Run(Snapshot(Idle, EmptyDraft), events[..j + 1]).effect
    ensures session.View() == Run(Snapshot(Idle, EmptyDraft), events).session
  {
    effects := [];
    var i := 0;
    while i < |events|
      invariant 0 <= i <= |events|
      invariant |effects| == i
      invariant forall j :: 0 <= j < i ==> effects[j] == Run(Snapshot(Idle, EmptyDraft), events[..j + 1]).effect
      invariant session.View() == Run(Snapshot(Idle, EmptyDraft), events[..i]).session
    {
      var effect := session.Dispatch(events[i]);
      RunSnoc(Snapshot(Idle, EmptyDraft), events[..i], events[i]);
      assert events[..i + 1] == events[..i] + [events[i]];
      effects := effects + [effect];
      i := i + 1;
    }
    assert events[..|events|] == events;
  }

  /** Running one more message continues from where the run stopped (an empty run stays where it began). */
  lemma {:induction false} RunSnoc(s: Snapshot, events: seq<Event>, e: Event)
    ensures Run(s, events + [e]) == Step(Run(s, events).session, e)
    decreases |events|
  {
    if |events| > 1 {
      assert (events + [e])[1..] == events[1..] + [e];
      RunSnoc(Step(s, events[0]).session, events[1..], e);
    } else if |events| == 1 {
      assert (events + [e])[1..] == [e];
    }
  }
}
