/**
 * The character-class validators of users/validators.py and recipes/validators.py.
 *
 * Each one is `re.match(r'^[C]*$', value)` for a character class C. Python's `re.match`
 * anchors at the start, and without MULTILINE its `$` matches at the end of the string or
 * just before a final newline. The engine is modelled as it runs: the star takes the longest
 * run of class characters, then gives characters back one at a time until `$` matches.
 */
module Validators {

  predicate IsAsciiLetter(c: char) {
    'a' <= c <= 'z' || 'A' <= c <= 'Z'
  }

  /** The ranges а-я and А-Я of the pattern, plus ё and Ё (which lie outside both ranges). */
  predicate IsCyrillicLetter(c: char) {
    '\U{0430}' <= c <= '\U{044F}' || '\U{0410}' <= c <= '\U{042F}' || c == '\U{0451}' || c == '\U{0401}'
  }

  /** `\s` in a `str` pattern: the characters for which Python's `str.isspace()` holds. */
  predicate IsRegexSpace(c: char) {
    || '\t' <= c <= '\r'
    || '\U{001C}' <= c <= '\U{001F}'
    || c == ' '
    || c == '\U{0085}'
    || c == '\U{00A0}'
    || c == '\U{1680}'
    || '\U{2000}' <= c <= '\U{200A}'
    || c == '\U{2028}' || c == '\U{2029}'
    || c == '\U{202F}' || c == '\U{205F}' || c == '\U{3000}'
  }

  /** The two character classes the validators use. */
  datatype CharClass =
    | UsernameChars  // [a-zA-Z_.]
    | NameChars      // [a-zA-Zа-яА-ЯёЁ\s]

  predicate InClass(c: char, cls: CharClass) {
    match cls
    case UsernameChars => IsAsciiLetter(c) || c == '_' || c == '.'
    case NameChars => IsAsciiLetter(c) || IsCyrillicLetter(c) || IsRegexSpace(c)
  }

  predicate AllInClass(s: string, cls: CharClass) {
    forall i :: 0 <= i < |s| ==> InClass(s[i], cls)
  }

  /** Where the greedy `[C]*` stops when started at `i`: the end of the run of class characters. */
  function GreedyRun(s: string, cls: CharClass, i: nat): (k: nat)
    requires i <= |s|
    ensures i <= k <= |s|
    ensures forall j :: i <= j < k ==> InClass(s[j], cls)
    ensures k < |s| ==> !InClass(s[k], cls)
    decreases |s| - i
  {
    if i < |s| && InClass(s[i], cls) then GreedyRun(s, cls, i + 1) else i
  }

  /** Python's `$` without MULTILINE, tried at position `k`. */
  predicate DollarAt(s: string, k: nat) {
    k == |s| || (k + 1 == |s| && s[k] == '\n')
  }

  /** Backtracking: try `$` after `k` characters taken by the star, then after `k - 1`, ... down to 0. */
  predicate Backtrack(s: string, k: nat)
    decreases k
  {
    DollarAt(s, k) || (k > 0 && Backtrack(s, k - 1))
  }

  /** `re.match(r'^[C]*$', s)` is not None. */
  predicate ReMatch(s: string, cls: CharClass) {
    Backtrack(s, GreedyRun(s, cls, 0))
  }

  lemma {:induction false} BacktrackIff(s: string, k: nat)
    requires k <= |s|
    ensures Backtrack(s, k) <==> k == |s| || (0 < |s| <= k + 1 && s[|s| - 1] == '\n')
    decreases k
  {
    if k > 0 {
      BacktrackIff(s, k - 1);
    }
  }

  /** The anchored star pattern accepts exactly the strings made of class characters,
      optionally followed by one final newline. */
  lemma ReMatchIff(s: string, cls: CharClass)
    ensures ReMatch(s, cls) <==>
              AllInClass(s, cls) || (|s| > 0 && s[|s| - 1] == '\n' && AllInClass(s[..|s| - 1], cls))
  {
    var k := GreedyRun(s, cls, 0);
    BacktrackIff(s, k);
  }

  /** Verdict of a Django validator: it returns, or raises ValidationError with a message. */
  datatype Verdict = Accepted | Rejected(message: string)

  const MeMessage: string := "You cannot use \"me\" as a username."
  const NameMessage: string := "Name can only contain letters."
  const TagNameMessage: string := "Tag name can only contain letters."

  function AsciiLower(c: char): char {
    if 'A' <= c <= 'Z' then (c as int + 32) as char else c
  }

  /** `value.lower()` restricted to the question whether it equals "me": only the ASCII letters
      M and E lowercase to 'm' and 'e', so lowering ASCII capitals decides it. */
  function Lower(s: string): (r: string)
    ensures |r| == |s|
  {
    seq(|s|, i requires 0 <= i < |s| => AsciiLower(s[i]))
  }

  predicate IsMe(value: string) {
    Lower(value) == "me"
  }

  /** users/validators.py `validate_username`. */
  function ValidateUsername(value: string): Verdict {
    if IsMe(value) then Rejected(MeMessage)
    else if !ReMatch(value, UsernameChars) then Rejected(NameMessage)
    else Accepted
  }

  /** users/validators.py `validate_name`. */
  function ValidateName(value: string): Verdict {
    if !ReMatch(value, NameChars) then Rejected(NameMessage) else Accepted
  }

  /** recipes/validators.py `validate_name` (imported as `validate_tagname`). */
  function ValidateTagName(tagname: string): Verdict {
    if !ReMatch(tagname, NameChars) then Rejected(TagNameMessage) else Accepted
  }

  /** "me" in any capitalisation is refused with its own message. */
  lemma MeRejected(value: string)
    requires |value| == 2 && (value[0] == 'm' || value[0] == 'M') && (value[1] == 'e' || value[1] == 'E')
    ensures ValidateUsername(value) == Rejected(MeMessage)
  {
    assert Lower(value) == "me";
  }

  /** validate_username accepts exactly the non-"me" strings of ASCII letters, '_' and '.',
      possibly followed by one final newline. */
  lemma UsernameAcceptedIff(value: string)
    ensures ValidateUsername(value) == Accepted <==>
              !IsMe(value) &&
              (AllInClass(value, UsernameChars) ||
               (|value| > 0 && value[|value| - 1] == '\n' && AllInClass(value[..|value| - 1], UsernameChars)))
  {
    ReMatchIff(value, UsernameChars);
  }

  /** A single trailing newline gets past the username pattern. */
  lemma UsernameTrailingNewline(w: string)
    requires AllInClass(w, UsernameChars)
    ensures ValidateUsername(w + "\n") == Accepted
  {
    var s := w + "\n";
    assert s[..|s| - 1] == w;
    ReMatchIff(s, UsernameChars);
    assert Lower(s)[|s| - 1] == '\n';
  }

  /** The name class contains '\n', so the trailing-newline case adds nothing: validate_name
      accepts exactly the strings of letters (Latin, а-я, А-Я, ё, Ё) and whitespace. */
  lemma NameAcceptedIff(value: string)
    ensures ValidateName(value) == Accepted <==> AllInClass(value, NameChars)
  {
    ReMatchIff(value, NameChars);
    if |value| > 0 && value[|value| - 1] == '\n' && AllInClass(value[..|value| - 1], NameChars) {
      forall i | 0 <= i < |value| ensures InClass(value[i], NameChars) {
        if i < |value| - 1 {
          assert value[i] == value[..|value| - 1][i];
        }
      }
    }
  }

  /** Both star patterns match the empty string. */
  lemma EmptyAccepted()
    ensures ValidateUsername("") == Accepted
    ensures ValidateName("") == Accepted
    ensures ValidateTagName("") == Accepted
  {
    assert Lower("") == "";
  }

  /** The tag-name validator accepts the same strings as users' validate_name; only its message differs. */
  lemma TagNameSameAsName(value: string)
    ensures ValidateTagName(value).Accepted? <==> ValidateName(value).Accepted?
    ensures ValidateTagName(value).Rejected? ==> ValidateTagName(value).message == TagNameMessage
    ensures ValidateName(value).Rejected? ==> ValidateName(value).message == NameMessage
  {
  }

  predicate IsAsciiPunctuation(c: char) {
    '!' <= c <= '/' || ':' <= c <= '@' || '[' <= c <= '`' || '{' <= c <= '~'
  }

  /** A tag name holding a digit or an ASCII punctuation mark anywhere is refused. */
  lemma TagNameRejectsDigitOrPunctuation(tagname: string, i: nat)
    requires i < |tagname|
    requires ('0' <= tagname[i] <= '9') || IsAsciiPunctuation(tagname[i])
    ensures ValidateTagName(tagname) == Rejected(TagNameMessage)
  {
    NameAcceptedIff(tagname);
  }
}
