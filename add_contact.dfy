/** The new-contact form (components/AddContactModal.tsx): the blank-field
    check, the phone-number pattern and what a submission does to the form. */
module AddContact {
  import opened Types
  import opened Strings

  const FillAllFields: string := "Please fill in all fields"
  const InvalidPhone: string := "Please enter a valid phone number (e.g., +1 555 123 4567)"

  // ---------------------------------------------------------------------------
  // The pattern ^[+]?[(]?[0-9]{1,4}[)]?[-\s./0-9]*$
  // ---------------------------------------------------------------------------

  /** The characters of the trailing class `[-\s./0-9]`. */
  predicate IsTailChar(c: char) {
    c == '-' || IsWhitespace(c) || c == '.' || c == '/' || IsDigit(c)
  }

  ghost predicate DigitsIn(s: string, lo: int, hi: int)
    requires 0 <= lo <= hi <= |s|
  {
    forall i :: lo <= i < hi ==> IsDigit(s[i])
  }

  ghost predicate TailFrom(s: string, lo: int)
    requires 0 <= lo <= |s|
  {
    forall i :: lo <= i < |s| ==> IsTailChar(s[i])
  }

  /** `s` splits as an optional `+` (`s[..a]`), an optional `(` (`s[a..b]`), one
      to four digits (`s[b..c]`), an optional `)` (`s[c..d]`) and a tail of
      class characters (`s[d..]`), with nothing before or after. */
  ghost predicate PatternSplit(s: string, a: int, b: int, c: int, d: int) {
    && 0 <= a <= 1 && a <= b <= a + 1 && b + 1 <= c <= b + 4 && c <= d <= c + 1 && d <= |s|
    && (a == 1 ==> s[0] == '+')
    && (b == a + 1 ==> s[a] == '(')
    && DigitsIn(s, b, c)
    && (d == c + 1 ==> s[c] == ')')
    && TailFrom(s, d)
  }

  /** The regular expression's language: some split exists. */
  ghost predicate InPattern(s: string) {
    exists a, b, c, d :: PatternSplit(s, a, b, c, d)
  }

  /** The first index at or after `lo` holding `x`, or `|s|` if there is none. */
  function IndexFrom(s: string, x: char, lo: nat): (k: nat)
    requires lo <= |s|
    ensures lo <= k <= |s|
    ensures forall i :: lo <= i < k ==> s[i] != x
    ensures k < |s| ==> s[k] == x
    decreases |s| - lo
  {
    if lo == |s| || s[lo] == x then lo else IndexFrom(s, x, lo + 1)
  }

  function AllTailFrom(s: string, lo: nat): (b: bool)
    requires lo <= |s|
    ensures b <==> TailFrom(s, lo)
    decreases |s| - lo
  {
    lo == |s| || (IsTailChar(s[lo]) && AllTailFrom(s, lo + 1))
  }

  function AllDigitsIn(s: string, lo: nat, hi: nat): (b: bool)
    requires lo <= hi <= |s|
    ensures b <==> DigitsIn(s, lo, hi)
    decreases hi - lo
  {
    lo == hi || (IsDigit(s[lo]) && AllDigitsIn(s, lo + 1, hi))
  }

  /** Where the digits start: after a leading `+` and then a `(`, each taken
      when present. */
  function DigitsStart(s: string): (b: nat)
    ensures b <= |s| && b <= 2
  {
    var a := if |s| > 0 && s[0] == '+' then 1 else 0;
    if a < |s| && s[a] == '(' then a + 1 else a
  }

  /** `phoneRegex.test(s)`, decided in one pass: a `)` after the digits start
      must close a group of one to four digits and be followed by class
      characters only; without a `)` one digit followed by class characters
      suffices, since digits belong to the tail class. */
  function MatchesPhonePattern(s: string): (r: bool)
    ensures r ==> DigitsStart(s) < |s| && IsDigit(s[DigitsStart(s)])
  {
    var b := DigitsStart(s);
    var k := IndexFrom(s, ')', b);
    if k < |s| then b + 1 <= k <= b + 4 && AllDigitsIn(s, b, k) && AllTailFrom(s, k + 1)
    else b < |s| && IsDigit(s[b]) && AllTailFrom(s, b + 1)
  }

  /** The one-pass decision accepts exactly the strings of the pattern. */
  lemma MatchesPhonePatternIsPattern(s: string)
    ensures MatchesPhonePattern(s) <==> InPattern(s)
  {
    if MatchesPhonePattern(s) {
      PatternWitness(s);
    }
    if InPattern(s) {
      var a, b, c, d :| PatternSplit(s, a, b, c, d);
      SplitIsDecided(s, a, b, c, d);
    }
  }

  lemma PatternWitness(s: string)
    requires MatchesPhonePattern(s)
    ensures InPattern(s)
  {
    var b := DigitsStart(s);
    var a := if |s| > 0 && s[0] == '+' then 1 else 0;
    var k := IndexFrom(s, ')', b);
    if k < |s| {
      assert PatternSplit(s, a, b, k, k + 1);
    } else {
      assert PatternSplit(s, a, b, b + 1, b + 1);
    }
  }

  lemma SplitIsDecided(s: string, a: int, b: int, c: int, d: int)
    requires PatternSplit(s, a, b, c, d)
    ensures MatchesPhonePattern(s)
  {
    assert IsDigit(s[b]);
    assert DigitsStart(s) == b;
    var k := IndexFrom(s, ')', b);
    if d == c + 1 {
      assert k == c;
    } else {
      assert k == |s|;
      assert TailFrom(s, b + 1);
    }
  }

  /** The format shown in the error message matches. */
  lemma MessageExampleAccepted()
    ensures MatchesPhonePattern("+1 555 123 4567")
  {
    var s := "+1 555 123 4567";
    assert DigitsStart(s) == 1;
    assert forall i :: 1 <= i < |s| ==> s[i] != ')';
    assert IndexFrom(s, ')', 1) == |s|;
    assert forall i :: 2 <= i < |s| ==> IsTailChar(s[i]);
  }

  /** The number shown as the input's placeholder matches. */
  lemma PlaceholderExampleAccepted()
    ensures MatchesPhonePattern("+33 6 12 34 56 78")
  {
    var s := "+33 6 12 34 56 78";
    assert DigitsStart(s) == 1;
    assert forall i :: 1 <= i < |s| ==> s[i] != ')';
    assert IndexFrom(s, ')', 1) == |s|;
    assert forall i :: 2 <= i < |s| ==> IsTailChar(s[i]);
  }

  /** A bracketed area code with a dash matches. */
  lemma BracketedExampleAccepted()
    ensures MatchesPhonePattern("(555) 123-4567")
  {
    var s := "(555) 123-4567";
    assert DigitsStart(s) == 1;
    assert forall i :: 1 <= i < 4 ==> s[i] != ')';
    assert IndexFrom(s, ')', 1) == 4;
    assert DigitsIn(s, 1, 4);
    assert forall i :: 5 <= i < |s| ==> IsTailChar(s[i]);
  }

  /** The pattern is lenient about brackets: an unclosed `(` and an unopened
      `)` both pass. */
  lemma UnbalancedBracketsAccepted()
    ensures MatchesPhonePattern("(12")
    ensures MatchesPhonePattern("12)3")
  {
    var s := "(12";
    assert DigitsStart(s) == 1;
    assert IndexFrom(s, ')', 1) == |s|;
    assert TailFrom(s, 2);
    var t := "12)3";
    assert DigitsStart(t) == 0;
    assert IndexFrom(t, ')', 0) == 2;
    assert DigitsIn(t, 0, 2);
    assert TailFrom(t, 3);
  }

  /** A character outside every class of the pattern (a letter, say) anywhere
      rejects the number; so does leading whitespace, and so do five digits
      before a `)`. */
  lemma RejectedForms(s: string, i: int)
    requires 0 <= i < |s|
    ensures !IsTailChar(s[i]) && s[i] != '+' && s[i] != '(' && s[i] != ')' ==> !MatchesPhonePattern(s)
    ensures IsWhitespace(s[0]) ==> !MatchesPhonePattern(s)
    ensures !MatchesPhonePattern("(12345)")
  {
    MatchesPhonePatternIsPattern(s);
    var five := "(12345)";
    assert DigitsStart(five) == 1;
    assert IndexFrom(five, ')', 1) == 6;
  }

  // ---------------------------------------------------------------------------
  // Submitting the form
  // ---------------------------------------------------------------------------

  datatype SubmitOutcome =
    | Rejected(message: string)
    | Saved(name: string, phoneNumber: string)

  /** What `handleSubmit` decides for the current field values. */
  function Decide(name: string, phoneNumber: string): (o: SubmitOutcome)
    ensures o.Saved? <==> !IsBlank(name) && !IsBlank(phoneNumber) && MatchesPhonePattern(phoneNumber)
    ensures o.Saved? ==> o.name == name && o.phoneNumber == phoneNumber
    ensures o.Rejected? ==>
              o.message == if IsBlank(name) || IsBlank(phoneNumber) then FillAllFields else InvalidPhone
  {
    if IsBlank(name) || IsBlank(phoneNumber) then Rejected(FillAllFields)
    else if !MatchesPhonePattern(phoneNumber) then Rejected(InvalidPhone)
    else Saved(name, phoneNumber)
  }

  lemma TrailingSpaceAccepted()
    ensures MatchesPhonePattern("555 ")
  {
    var s := "555 ";
    assert DigitsStart(s) == 0;
    assert IndexFrom(s, ')', 0) == |s|;
    assert TailFrom(s, 1);
  }

  /** The values are saved as typed: whitespace around the name and after
      the number survives. */
  lemma SavedUntrimmed()
    ensures Decide(" Ana ", "555 ") == Saved(" Ana ", "555 ")
  {
    NotBlankAt(" Ana ", 1);
    NotBlankAt("555 ", 0);
    TrailingSpaceAccepted();
  }

  /** Whitespace before the number passes the blank check but not the pattern. */
  lemma LeadingSpaceRejected()
    ensures Decide("Ana", " 555") == Rejected(InvalidPhone)
  {
    NotBlankAt("Ana", 0);
    NotBlankAt(" 555", 1);
    RejectedForms(" 555", 0);
  }

  class AddContactForm {
    var name: string
    var phoneNumber: string
    var error: string

    constructor ()
      ensures name == "" && phoneNumber == "" && error == ""
    {
      name, phoneNumber, error := "", "", "";
    }

    /** `handleSubmit`. A rejection shows its message and keeps the values; a
        save (after which the form calls `onSave` and `onClose`) clears all
        three fields. */
    method Submit() returns (outcome: SubmitOutcome)
      modifies this
      ensures outcome == Decide(old(name), old(phoneNumber))
      ensures outcome.Rejected? ==>
                error == outcome.message && name == old(name) && phoneNumber == old(phoneNumber)
      ensures outcome.Saved? ==> name == "" && phoneNumber == "" && error == ""
    {
      outcome := Decide(name, phoneNumber);
      match outcome {
        case Rejected(message) =>
          error := message;
        case Saved(_, _) =>
          name, phoneNumber, error := "", "", "";
      }
    }
  }
}
