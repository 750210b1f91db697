/**
 * src/components/CharacterCreationModal.jsx: the three-stage creation
 * wizard (name, class, confirm).  The modal's state is an object whose
 * handlers update it step by step; each handler is reachable only from the
 * stage whose screen shows its button, which the `requires` clauses state.
 */
module CharacterCreation {
  import opened Text
  import Classes

  datatype Stage = UsernameStage | ClassStage | ConfirmStage

  const TooShortText := "Username must be at least 3 characters"
  const TooLongText := "Username must be 16 characters or less"
  const BadCharText := "Username can only contain letters, numbers, and spaces"

  /** The class `[a-zA-Z0-9 ]`. */
  predicate IsNameChar(c: char) {
    IsLetter(c) || IsDigit(c) || c == ' '
  }

  predicate AllNameChars(t: string) {
    forall i | 0 <= i < |t| :: IsNameChar(t[i])
  }

  /** The error `validateUsername` leaves: its three checks in order on the trimmed name, "" when all pass. */
  function NameError(username: string): string {
    var t := Trim(username);
    if Utf16Length(t) < 3 then TooShortText
    else if Utf16Length(t) > 16 then TooLongText
    else if !AllNameChars(t) then BadCharText
    else ""
  }

  /** A name the wizard accepts, as it stands after trimming. */
  predicate ValidName(t: string) {
    3 <= |t| <= 16 && AllNameChars(t)
  }

  /**
   * A name passes exactly when its trimmed form has 3 to 16 letters, digits
   * and spaces; a name too short is reported as such even when it also has
   * a bad character, and so is one too long.  The lengths are JavaScript's,
   * in UTF-16 code units, which for letters, digits and spaces are characters.
   */
  lemma NameErrorMeaning(username: string)
    ensures NameError(username) == "" <==> ValidName(Trim(username))
    ensures Utf16Length(Trim(username)) < 3 ==> NameError(username) == TooShortText
    ensures Utf16Length(Trim(username)) > 16 ==> NameError(username) == TooLongText
    ensures 3 <= Utf16Length(Trim(username)) <= 16 && !AllNameChars(Trim(username)) ==> NameError(username) == BadCharText
  {
    var t := Trim(username);
    if AllNameChars(t) {
      assert forall i | 0 <= i < |t| :: InBmp(t[i]);
    }
  }

  /** Two emoji make a trimmed name of four code units, which the character check refuses. */
  lemma EmojiNameHasBadChar()
    ensures NameError("\U{1F600}\U{1F600}") == BadCharText
  {
    var e := "\U{1F600}\U{1F600}";
    assert !IsSpace(e[0]) && !IsSpace(e[1]);
    TrimOfTrimmed(e);
    assert e[1..] == "\U{1F600}";
    assert !IsNameChar(e[0]);
  }

  /** The name handed on (already trimmed) passes the check again and has no space at either end. */
  lemma AcceptedNameStable(username: string)
    requires NameError(username) == ""
    ensures NameError(Trim(username)) == ""
    ensures var t := Trim(username); t[0] != ' ' && t[|t| - 1] != ' '
  {
    TrimIdempotent(username);
  }

  /** The stats `handleComplete` hands over. */
  datatype CompletedStats = CompletedStats(hp: int, maxHp: int, strength: int, agility: int, mindPower: int)

  /** What `onComplete` receives. */
  datatype Completed = Completed(username: string, characterClass: string, stats: CompletedStats)

  class Wizard {
    var stage: Stage
    var username: string
    var selectedClass: string
    var error: string

    /** A chosen class is a real one; past the name stage the name is accepted; at confirm a class is chosen. */
    predicate Valid()
      reads this
    {
      && (selectedClass == "" || Classes.IsClass(selectedClass))
      && (stage != UsernameStage ==> NameError(username) == "")
      && (stage == ConfirmStage ==> selectedClass != "")
    }

    constructor()
      ensures Valid()
      ensures stage == UsernameStage && username == "" && selectedClass == "" && error == ""
    {
      stage := UsernameStage;
      username := "";
      selectedClass := "";
      error := "";
    }

    /** Typing in the name box. */
    method Type(text: string)
      requires stage == UsernameStage && Valid()
      modifies this
      ensures Valid()
      ensures username == text && stage == old(stage) && selectedClass == old(selectedClass) && error == old(error)
    {
      username := text;
    }

    /** `validateUsername`: sets the error of the first failing check, or clears it. */
    method ValidateUsername() returns (ok: bool)
      modifies this
      ensures ok <==> NameError(username) == ""
      ensures error == NameError(username)
      ensures stage == old(stage) && username == old(username) && selectedClass == old(selectedClass)
    {
      var trimmed := Trim(username);
      if Utf16Length(trimmed) < 3 {
        error := TooShortText;
        return false;
      }
      if Utf16Length(trimmed) > 16 {
        error := TooLongText;
        return false;
      }
      if !AllNameChars(trimmed) {
        error := BadCharText;
        return false;
      }
      error := "";
      return true;
    }

    /** `handleUsernameNext`: on to the class stage only with an accepted name. */
    method UsernameNext()
      requires stage == UsernameStage && Valid()
      modifies this
      ensures Valid()
      ensures stage == (if NameError(username) == "" then ClassStage else UsernameStage)
      ensures error == NameError(username)
      ensures username == old(username) && selectedClass == old(selectedClass)
    {
      var ok := ValidateUsername();
      if ok {
        stage := ClassStage;
      }
    }

    /** `handleClassSelect(classKey)`, from a card of the class list. */
    method SelectClass(classKey: string)
      requires stage == ClassStage && Valid() && Classes.IsClass(classKey)
      modifies this
      ensures Valid()
      ensures selectedClass == classKey && stage == old(stage) && username == old(username) && error == old(error)
    {
      selectedClass := classKey;
    }

    /** `handleClassConfirm`: on to confirmation only with a class chosen. */
    method ClassConfirm()
      requires stage == ClassStage && Valid()
      modifies this
      ensures Valid()
      ensures stage == (if old(selectedClass) != "" then ConfirmStage else ClassStage)
      ensures username == old(username) && selectedClass == old(selectedClass) && error == old(error)
    {
      if selectedClass != "" {
        stage := ConfirmStage;
      }
    }

    /** The Back button of the class stage: the name and the class chosen are kept. */
    method BackToUsername()
      requires stage == ClassStage && Valid()
      modifies this
      ensures Valid()
      ensures stage == UsernameStage
      ensures username == old(username) && selectedClass == old(selectedClass) && error == old(error)
    {
      stage := UsernameStage;
    }

    /** The Back button of the confirm stage: the name and the class chosen are kept. */
    method BackToClass()
      requires stage == ConfirmStage && Valid()
      modifies this
      ensures Valid()
      ensures stage == ClassStage
      ensures username == old(username) && selectedClass == old(selectedClass) && error == old(error)
    {
      stage := ClassStage;
    }

    /**
     * `handleComplete`: the trimmed, accepted name, the chosen class and its
     * base stats, with hp and maxHp both the base hp; the stats spend the
     * 20-point budget.
     */
    method Complete() returns (c: Completed)
      requires stage == ConfirmStage && Valid()
      ensures c.username == Trim(username) && ValidName(c.username)
      ensures c.characterClass == selectedClass && Classes.IsClass(c.characterClass)
      ensures var b := Classes.ClassConfig(selectedClass).value.baseStats;
        c.stats == CompletedStats(b.hp, b.hp, b.strength, b.agility, b.mindPower)
      ensures Classes.SpendsBudget(Classes.ClassConfig(selectedClass).value.baseStats)
    {
      NameErrorMeaning(username);
      Classes.ClassBudget(selectedClass);
      var classData := Classes.ClassConfig(selectedClass).value;
      var b := classData.baseStats;
      c := Completed(Trim(username), selectedClass, CompletedStats(b.hp, b.hp, b.strength, b.agility, b.mindPower));
    }
  }
}
