/** The two format rules the customer and supplier forms apply to contact
    details: the e-mail pattern `^[\w-\.]+@([\w-]+\.)+[\w-]{2,4}$` and the
    phone pattern `^\d{11}$`.

    The e-mail pattern is given twice: `EmailPattern` follows the regular
    expression's structure (a choice of split points, one per `@` and per
    label), and `IsValidEmail` is a deterministic recognizer that splits at
    the first `@` and at the first `.` of each label. `IsValidEmailCorrect`
    proves that they accept the same strings. */
module ContactRules {
  import opened Text

  /** `\w`: an ASCII letter, digit or underscore. */
  predicate IsWordChar(c: char) {
    'a' <= c <= 'z' || 'A' <= c <= 'Z' || '0' <= c <= '9' || c == '_'
  }

  /** `[\w-\.]`, the characters of the part before `@`. */
  predicate IsLocalChar(c: char) {
    IsWordChar(c) || c == '-' || c == '.'
  }

  /** `[\w-]`, the characters of a domain label and of the final label. */
  predicate IsLabelChar(c: char) {
    IsWordChar(c) || c == '-'
  }

  predicate AllLocalChars(s: string) {
    forall k | 0 <= k < |s| :: IsLocalChar(s[k])
  }

  predicate AllLabelChars(s: string) {
    forall k | 0 <= k < |s| :: IsLabelChar(s[k])
  }

  /** `[\w-]{2,4}`, the last label. */
  predicate IsFinalLabel(s: string) {
    2 <= |s| <= 4 && AllLabelChars(s)
  }

  /** `([\w-]+\.)+[\w-]{2,4}`, read off the regular expression: some `.`
      ends a non-empty first label, and what follows is either the final
      label or again this shape. */
  ghost predicate LabelsThenFinal(d: string)
    decreases |d|
  {
    exists j | 0 < j < |d| ::
      && d[j] == '.'
      && AllLabelChars(d[..j])
      && (IsFinalLabel(d[j + 1..]) || LabelsThenFinal(d[j + 1..]))
  }

  /** The whole pattern: a non-empty local part, `@`, then the domain. */
  ghost predicate EmailPattern(s: string) {
    exists i | 0 < i < |s| ::
      && s[i] == '@'
      && AllLocalChars(s[..i])
      && LabelsThenFinal(s[i + 1..])
  }

  /** The index of the first `c` in `s`, or `|s|` when there is none. */
  function IndexOf(s: string, c: char): (i: nat)
    ensures i <= |s|
    ensures i < |s| ==> s[i] == c
    ensures forall k | 0 <= k < i :: s[k] != c
  {
    if s == [] then 0
    else if s[0] == c then 0
    else 1 + IndexOf(s[1..], c)
  }

  /** Recognizer for the domain part: split at the first `.`. */
  function MatchesDomain(d: string): bool
    decreases |d|
  {
    var j := IndexOf(d, '.');
    && 0 < j < |d|
    && AllLabelChars(d[..j])
    && (IsFinalLabel(d[j + 1..]) || MatchesDomain(d[j + 1..]))
  }

  /** Recognizer for the whole address: split at the first `@`. */
  function IsValidEmail(s: string): bool {
    var i := IndexOf(s, '@');
    && 0 < i < |s|
    && AllLocalChars(s[..i])
    && MatchesDomain(s[i + 1..])
  }

  /** The first occurrence is the only one before any index that has none before it. */
  lemma IndexOfIsFirst(s: string, c: char, j: nat)
    requires j < |s| && s[j] == c
    requires forall k | 0 <= k < j :: s[k] != c
    ensures IndexOf(s, c) == j
  {
  }

  lemma LabelCharsExclude(s: string, j: nat, c: char)
    requires j <= |s|
    requires AllLabelChars(s[..j])
    requires !IsLabelChar(c)
    ensures forall k | 0 <= k < j :: s[k] != c
  {
    forall k | 0 <= k < j
      ensures s[k] != c
    {
      assert s[..j][k] == s[k];
    }
  }

  lemma LocalCharsExclude(s: string, j: nat, c: char)
    requires j <= |s|
    requires AllLocalChars(s[..j])
    requires !IsLocalChar(c)
    ensures forall k | 0 <= k < j :: s[k] != c
  {
    forall k | 0 <= k < j
      ensures s[k] != c
    {
      assert s[..j][k] == s[k];
    }
  }

  lemma {:induction false} MatchesDomainSound(d: string)
    requires MatchesDomain(d)
    ensures LabelsThenFinal(d)
    decreases |d|
  {
    var first := IndexOf(d, '.');
    var rest := d[first + 1..];
    if !IsFinalLabel(rest) {
      MatchesDomainSound(rest);
    }
  }

  lemma {:induction false} MatchesDomainComplete(d: string)
    requires LabelsThenFinal(d)
    ensures MatchesDomain(d)
    decreases |d|
  {
    var j :| 0 < j < |d| && d[j] == '.' && AllLabelChars(d[..j])
              && (IsFinalLabel(d[j + 1..]) || LabelsThenFinal(d[j + 1..]));
    // A label holds no '.', so the witness split is the first '.'.
    LabelCharsExclude(d, j, '.');
    IndexOfIsFirst(d, '.', j);
    if !IsFinalLabel(d[j + 1..]) {
      MatchesDomainComplete(d[j + 1..]);
    }
  }

  lemma MatchesDomainCorrect(d: string)
    ensures MatchesDomain(d) <==> LabelsThenFinal(d)
  {
    if MatchesDomain(d) {
      MatchesDomainSound(d);
    }
    if LabelsThenFinal(d) {
      MatchesDomainComplete(d);
    }
  }

  /** The recognizer accepts exactly the strings the regular expression matches. */
  lemma IsValidEmailCorrect(s: string)
    ensures IsValidEmail(s) <==> EmailPattern(s)
  {
    var first := IndexOf(s, '@');
    if IsValidEmail(s) {
      MatchesDomainCorrect(s[first + 1..]);
      assert s[first] == '@' && AllLocalChars(s[..first]) && LabelsThenFinal(s[first + 1..]);
    }
    if EmailPattern(s) {
      var i :| 0 < i < |s| && s[i] == '@' && AllLocalChars(s[..i]) && LabelsThenFinal(s[i + 1..]);
      // The local part holds no '@', so the witness split is the first '@'.
      LocalCharsExclude(s, i, '@');
      IndexOfIsFirst(s, '@', i);
      MatchesDomainCorrect(s[i + 1..]);
    }
  }

  /** A valid address has exactly one `@`: the one the recognizer splits at. */
  lemma ValidEmailHasOneAt(s: string)
    requires IsValidEmail(s)
    ensures forall k | 0 <= k < |s| :: s[k] == '@' <==> k == IndexOf(s, '@')
  {
    var i := IndexOf(s, '@');
    DomainHasNoAt(s[i + 1..]);
    OnlyAtSplit(s, i, s[i + 1..]);
  }

  /** An `@` with none before it and none in what follows is the only one. */
  lemma OnlyAtSplit(s: string, i: nat, d: string)
    requires i < |s| && s[i] == '@' && d == s[i + 1..]
    requires forall k | 0 <= k < i :: s[k] != '@'
    requires forall k | 0 <= k < |d| :: d[k] != '@'
    ensures forall k | 0 <= k < |s| :: s[k] == '@' <==> k == i
  {
    forall k | i < k < |s|
      ensures s[k] != '@'
    {
      assert s[k] == d[k - i - 1];
    }
  }

  lemma {:induction false} DomainHasNoAt(d: string)
    requires MatchesDomain(d)
    ensures forall k | 0 <= k < |d| :: d[k] != '@'
    decreases |d|
  {
    var j := IndexOf(d, '.');
    var rest := d[j + 1..];
    if !IsFinalLabel(rest) {
      DomainHasNoAt(rest);
    }
    forall k | 0 <= k < |d|
      ensures d[k] != '@'
    {
      if k < j {
        assert d[..j][k] == d[k];
      } else if k > j {
        assert d[k] == rest[k - j - 1];
      }
    }
  }

  /** The empty string is not an address, so every required-field rule and
      the format rule never fire together. */
  lemma EmptyIsNotEmail()
    ensures !IsValidEmail("")
  {
  }

  /** `^\d{11}$`: exactly eleven ASCII decimal digits. */
  predicate IsPhoneNumber(s: string) {
    |s| == 11 && forall k | 0 <= k < |s| :: IsDigit(s[k])
  }
}
