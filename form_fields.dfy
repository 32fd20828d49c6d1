/** What the three "add" forms share: the email pattern `^[^\s@]+@[^\s@]+\.[^\s@]+$`,
    the required / positive-number checks with their messages, and the error
    record a field edit clears. */
module FormFields {
  import opened Wrappers
  import opened TextUtil

  /** A character the pattern's class `[^\s@]` admits. */
  predicate PlainChar(c: char) {
    !IsWhitespace(c) && c != '@'
  }

  predicate Plain(s: string) {
    forall i :: 0 <= i < |s| ==> PlainChar(s[i])
  }

  /** `s` reads as the pattern's three runs: plain characters before the '@' at
      `k`, plain characters up to the '.' at `d`, and plain characters after it. */
  predicate EmailSplit(s: string, k: int, d: int) {
    && 0 < k && k + 1 < d < |s| - 1
    && s[k] == '@' && s[d] == '.'
    && Plain(s[..k]) && Plain(s[k + 1..d]) && Plain(s[d + 1..])
  }

  /** The language of `^[^\s@]+@[^\s@]+\.[^\s@]+$`. */
  ghost predicate MatchesEmailPattern(s: string) {
    exists k, d :: EmailSplit(s, k, d)
  }

  /** The index of the first `c` in `s`, or `|s|` when there is none. */
  function FirstIndexOf(s: string, c: char): (i: nat)
    ensures i <= |s|
    ensures i < |s| ==> s[i] == c
    ensures forall j :: 0 <= j < i ==> s[j] != c
  {
    if s == [] then 0
    else if s[0] == c then 0
    else 1 + FirstIndexOf(s[1..], c)
  }

  /** The pattern's test, read as conditions on the string: its first '@' is not
      the first character, no character other than that '@' is whitespace or
      another '@', and a '.' sits strictly inside the part after the '@'. */
  function IsValidEmail(s: string): bool {
    var k := FirstIndexOf(s, '@');
    && 0 < k && k + 3 < |s|
    && Plain(s[..k]) && Plain(s[k + 1..])
    && '.' in s[k + 2..|s| - 1]
  }

  /** The conditions above accept exactly the strings the pattern matches. */
  lemma EmailCheckMatchesPattern(s: string)
    ensures IsValidEmail(s) <==> MatchesEmailPattern(s)
  {
    var k := FirstIndexOf(s, '@');
    if IsValidEmail(s) {
      var e :| 0 <= e < |s[k + 2..|s| - 1]| && s[k + 2..|s| - 1][e] == '.';
      var d := k + 2 + e;
      assert s[d] == '.';
      var domain, host, tld := s[k + 1..], s[k + 1..d], s[d + 1..];
      forall i | 0 <= i < |host|
        ensures PlainChar(host[i])
      {
        assert host[i] == domain[i];
      }
      forall i | 0 <= i < |tld|
        ensures PlainChar(tld[i])
      {
        assert tld[i] == domain[d - k + i];
      }
      assert EmailSplit(s, k, d);
    }
    if MatchesEmailPattern(s) {
      var k', d :| EmailSplit(s, k', d);
      assert k == k' by {
        assert forall j :: 0 <= j < k' ==> s[j] == s[..k'][j];
      }
      var domain, host, tld := s[k + 1..], s[k + 1..d], s[d + 1..];
      forall i | 0 <= i < |domain|
        ensures PlainChar(domain[i])
      {
        var p := k + 1 + i;
        if p < d {
          assert domain[i] == host[i];
        } else if p == d {
          assert domain[i] == '.';
        } else {
          assert domain[i] == tld[p - d - 1];
        }
      }
      assert s[k + 2..|s| - 1][d - k - 2] == '.';
    }
  }

  /** The email field's message: "required" first, then the pattern. */
  function EmailError(email: string): (r: string)
    ensures r == "" <==> IsValidEmail(email)
    ensures email == "" ==> r == "Email is required"
    ensures email != "" && !IsValidEmail(email) ==> r == "Please enter a valid email"
  {
    if email == "" then "Email is required"
    else if IsValidEmail(email) then ""
    else "Please enter a valid email"
  }

  /** A required text field's message. */
  function RequiredError(value: string, message: string): (r: string)
    requires message != ""
    ensures r == "" <==> value != ""
  {
    if value == "" then message else ""
  }

  /** An amount field's message: `required` when empty, `invalid` when `Number`
      (`parse`, `None` for NaN) does not give a positive number, else none. */
  function AmountError(text: string, parse: string -> Option<real>, required: string, invalid: string): (r: string)
    requires required != "" && invalid != ""
    ensures r == "" <==> text != "" && parse(text).Some? && parse(text).value > 0.0
    ensures text == "" ==> r == required
    ensures text != "" && !(parse(text).Some? && parse(text).value > 0.0) ==> r == invalid
  {
    if text == "" then required
    else if parse(text).None? || parse(text).value <= 0.0 then invalid
    else ""
  }

  /** No field has a message: `!Object.values(errors).some((error) => error)`. */
  predicate AllClear(errors: map<string, string>) {
    forall name :: name in errors ==> errors[name] == ""
  }

  /** The "clear error when user types" step: the edited field's message, if it
      has one, becomes "", and every other message stays. */
  function ClearedError(errors: map<string, string>, name: string): (r: map<string, string>)
    ensures r.Keys == errors.Keys
    ensures name in errors ==> r[name] == ""
    ensures forall other :: other in errors && other != name ==> r[other] == errors[other]
  {
    if name in errors && errors[name] != "" then errors[name := ""] else errors
  }
}
