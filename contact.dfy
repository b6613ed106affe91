/**
 * The contact form: three text fields, an error line and the last accepted
 * submission. Submitting checks for blank fields first, then the email
 * pattern `/\S+@\S+\.\S+/`; typing into a field clears the error.
 */
module Contact {
  import opened Wrappers

  /**
   * The characters ECMAScript counts as white space or line terminators:
   * the set `String.prototype.trim` strips and the regex class `\s` matches.
   */
  predicate IsSpace(c: char) {
    var n := c as int;
    || n == 0x09 || n == 0x0A || n == 0x0B || n == 0x0C || n == 0x0D
    || n == 0x20 || n == 0xA0 || n == 0x1680 || (0x2000 <= n <= 0x200A)
    || n == 0x2028 || n == 0x2029 || n == 0x202F || n == 0x205F
    || n == 0x3000 || n == 0xFEFF
  }

  /** Every character is white space (the empty string included). */
  predicate Blank(s: string) {
    forall i | 0 <= i < |s| :: IsSpace(s[i])
  }

  /** No character is white space: a run of the regex class `\S`. */
  predicate NoSpace(s: string) {
    forall i | 0 <= i < |s| :: !IsSpace(s[i])
  }

  /** Leading white space removed. */
  function TrimStart(s: string): string {
    if s != [] && IsSpace(s[0]) then TrimStart(s[1..]) else s
  }

  /** Trailing white space removed. */
  function TrimEnd(s: string): string {
    if s != [] && IsSpace(s[|s| - 1]) then TrimEnd(s[..|s| - 1]) else s
  }

  /** `String.prototype.trim`. */
  function Trim(s: string): string {
    TrimEnd(TrimStart(s))
  }

  /** `TrimStart` drops a white-space prefix and stops at the first other character. */
  lemma {:induction false} TrimStartSpec(s: string)
    ensures var r := TrimStart(s);
      && |r| <= |s| && r == s[|s| - |r|..]
      && Blank(s[..|s| - |r|])
      && (r == [] || !IsSpace(r[0]))
  {
    if s != [] && IsSpace(s[0]) {
      TrimStartSpec(s[1..]);
      var r := TrimStart(s);
      assert s[..|s| - |r|] == [s[0]] + s[1..][..|s| - 1 - |r|];
    }
  }

  /** `TrimEnd` drops a white-space suffix and stops at the last other character. */
  lemma {:induction false} TrimEndSpec(s: string)
    ensures var r := TrimEnd(s);
      && |r| <= |s| && r == s[..|r|]
      && Blank(s[|r|..])
      && (r == [] || !IsSpace(r[|r| - 1]))
  {
    if s != [] && IsSpace(s[|s| - 1]) {
      TrimEndSpec(s[..|s| - 1]);
      var r := TrimEnd(s);
      assert s[|r|..] == s[..|s| - 1][|r|..] + [s[|s| - 1]];
    }
  }

  /** `!x.trim()` holds exactly for the strings made only of white space. */
  lemma TrimEmptyIffBlank(s: string)
    ensures Trim(s) == [] <==> Blank(s)
  {
    var t := TrimStart(s);
    TrimStartSpec(s);
    TrimEndSpec(t);
    assert s == s[..|s| - |t|] + t;
    if Trim(s) == [] {
      assert t[|TrimEnd(t)|..] == t;
    }
  }

  /**
   * `/\S+@\S+\.\S+/` matches `s[i..m]`: a non-empty run of non-space
   * characters `s[i..j]`, the `@` at `j`, a run `s[j+1..k]`, the `.` at `k`
   * and a run `s[k+1..m]`.
   */
  ghost predicate PatternAt(s: string, i: int, j: int, k: int, m: int) {
    && 0 <= i < j && j + 1 < k && k + 1 < m <= |s|
    && s[j] == '@' && s[k] == '.'
    && NoSpace(s[i..j]) && NoSpace(s[j + 1..k]) && NoSpace(s[k + 1..m])
  }

  /** The regex is unanchored: `test` succeeds when it matches anywhere. */
  ghost predicate PatternOccurs(s: string) {
    exists i, j, k, m :: PatternAt(s, i, j, k, m)
  }

  /**
   * `emailRegex.test(email)`: some `@` at `j` and `.` at `k` with a
   * non-space character before the `@`, after the `.`, and only
   * non-space characters (at least one) between them.
   */
  predicate EmailTest(s: string) {
    exists j, k | 1 <= j < |s| && j + 1 < k < |s| - 1 :: AtDotPair(s, j, k)
  }

  /** The `@` at `j` and the `.` at `k` give a match. */
  predicate AtDotPair(s: string, j: int, k: int) {
    && 1 <= j && j + 1 < k < |s| - 1
    && s[j] == '@' && s[k] == '.'
    && !IsSpace(s[j - 1]) && !IsSpace(s[k + 1]) && NoSpace(s[j + 1..k])
  }

  /** The two-index test decides the regex's match exactly. */
  lemma EmailTestIsPattern(s: string)
    ensures EmailTest(s) <==> PatternOccurs(s)
  {
    if EmailTest(s) {
      var j, k :| 1 <= j < |s| && j + 1 < k < |s| - 1 && AtDotPair(s, j, k);
      PairGivesPattern(s, j, k);
    }
    if PatternOccurs(s) {
      var i, j, k, m :| PatternAt(s, i, j, k, m);
      PatternGivesPair(s, i, j, k, m);
    }
  }

  lemma PairGivesPattern(s: string, j: int, k: int)
    requires AtDotPair(s, j, k)
    ensures PatternAt(s, j - 1, j, k, k + 2)
  {
    assert s[j - 1..j] == [s[j - 1]];
    assert s[k + 1..k + 2] == [s[k + 1]];
  }

  lemma PatternGivesPair(s: string, i: int, j: int, k: int, m: int)
    requires PatternAt(s, i, j, k, m)
    ensures AtDotPair(s, j, k)
  {
    assert s[i..j][j - 1 - i] == s[j - 1];
    assert s[k + 1..m][0] == s[k + 1];
  }

  /** A string with no `@` never passes the email check. */
  lemma NoAtFails(s: string)
    requires forall i | 0 <= i < |s| :: s[i] != '@'
    ensures !EmailTest(s) && !PatternOccurs(s)
  {
    EmailTestIsPattern(s);
  }

  datatype Verdict = MissingField | InvalidEmail | Accepted

  /** The two checks of `handleSubmit`, blank fields first. */
  function Validate(name: string, email: string, message: string): Verdict {
    if Trim(name) == [] || Trim(email) == [] || Trim(message) == [] then MissingField
    else if !EmailTest(email) then InvalidEmail
    else Accepted
  }

  /** What each verdict means, in terms of white space and the regex. */
  lemma ValidateMeaning(name: string, email: string, message: string)
    ensures Validate(name, email, message) == MissingField <==> Blank(name) || Blank(email) || Blank(message)
    ensures Validate(name, email, message) == InvalidEmail <==>
              !Blank(name) && !Blank(email) && !Blank(message) && !PatternOccurs(email)
    ensures Validate(name, email, message) == Accepted <==>
              !Blank(name) && !Blank(email) && !Blank(message) && PatternOccurs(email)
  {
    TrimEmptyIffBlank(name);
    TrimEmptyIffBlank(email);
    TrimEmptyIffBlank(message);
    EmailTestIsPattern(email);
  }

  /** A blank field is reported whatever the email looks like. */
  lemma BlankTakesPrecedence(name: string, email: string, message: string)
    requires Blank(name) || Blank(message)
    ensures Validate(name, email, message) == MissingField
  {
    ValidateMeaning(name, email, message);
  }

  const RequiredError := "All fields are required."
  const EmailError := "Invalid email address"

  /** The three inputs, also the shape of `submittedData`. */
  datatype Entries = Entries(name: string, email: string, message: string) {
    function With(field: Field, value: string): (e: Entries)
      ensures e.name == (if field == Name then value else name)
      ensures e.email == (if field == Email then value else email)
      ensures e.message == (if field == Message then value else message)
    {
      match field
      case Name => this.(name := value)
      case Email => this.(email := value)
      case Message => this.(message := value)
    }
  }

  datatype Field = Name | Email | Message

  const EmptyEntries := Entries("", "", "")

  /** The `ContactForm` component's state. */
  class ContactForm {
    var name: string
    var email: string
    var message: string
    var submittedData: Option<Entries>
    var error: string

    function Fields(): Entries
      reads this
    {
      Entries(name, email, message)
    }

    constructor ()
      ensures Fields() == EmptyEntries && submittedData == None && error == ""
    {
      name, email, message := "", "", "";
      submittedData := None;
      error := "";
    }

    method HandleSubmit()
      modifies this
      ensures Validate(old(name), old(email), old(message)) == MissingField ==>
                error == RequiredError && submittedData == None && Fields() == old(Fields())
      ensures Validate(old(name), old(email), old(message)) == InvalidEmail ==>
                error == EmailError && submittedData == None && Fields() == old(Fields())
      ensures Validate(old(name), old(email), old(message)) == Accepted ==>
                error == "" && submittedData == Some(old(Fields())) && Fields() == EmptyEntries
    {
      var verdict := Validate(name, email, message);
      if verdict == MissingField {
        error := RequiredError;
        submittedData := None;
        return;
      }
      if verdict == InvalidEmail {
        error := EmailError;
        submittedData := None;
        return;
      }
      error := "";
      submittedData := Some(Entries(name, email, message));
      name, email, message := "", "", "";
    }

    /** `handleInputChange(setter)(e)` for the input bound to `field`. */
    method HandleInputChange(field: Field, value: string)
      modifies this
      ensures Fields() == old(Fields()).With(field, value)
      ensures error == ""
      ensures submittedData == old(submittedData)
    {
      match field {
        case Name => name := value;
        case Email => email := value;
        case Message => message := value;
      }
      if error != "" {
        error := "";
      }
    }
  }
}
