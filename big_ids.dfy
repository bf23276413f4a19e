/** The rewrite the campaign and dashboard services apply to a response text
    before parsing it:
    `text.replace(/"id"\s*:\s*([0-9]{15,})/g, '"id":"$1"')`.
    An id of fifteen digits or more would lose precision as a JavaScript
    number, so it is turned into a string. The global replace scans left to
    right: where the pattern matches, the match is replaced and the scan goes
    on after it; elsewhere one character is copied. */
module BigIds {
  import opened Wrappers
  import opened Strings

  /** The quoted key the pattern starts with. */
  const IdKey: string := "\"id\""

  /** `[0-9]{15,}` */
  const MinDigits: nat := 15

  predicate AllSpaces(s: string, a: nat, b: nat)
    requires a <= b <= |s|
  {
    forall k :: a <= k < b ==> IsSpace(s[k])
  }

  predicate AllDigits(s: string, a: nat, b: nat)
    requires a <= b <= |s|
  {
    forall k :: a <= k < b ==> IsDigit(s[k])
  }

  /** `\s*` from `i`: the first index at or after `i` that is not white space. */
  function SkipSpaces(s: string, i: nat): (r: nat)
    requires i <= |s|
    ensures i <= r <= |s| && AllSpaces(s, i, r)
    ensures r == |s| || !IsSpace(s[r])
    decreases |s| - i
  {
    if i < |s| && IsSpace(s[i]) then SkipSpaces(s, i + 1) else i
  }

  /** `[0-9]*` from `i`, greedy: the first index at or after `i` that is not a digit. */
  function SkipDigits(s: string, i: nat): (r: nat)
    requires i <= |s|
    ensures i <= r <= |s| && AllDigits(s, i, r)
    ensures r == |s| || !IsDigit(s[r])
    decreases |s| - i
  {
    if i < |s| && IsDigit(s[i]) then SkipDigits(s, i + 1) else i
  }

  /** Where a white-space run stops is fixed by the text. */
  lemma SkipSpacesAt(s: string, a: nat, b: nat)
    requires a <= b <= |s| && AllSpaces(s, a, b)
    requires b == |s| || !IsSpace(s[b])
    ensures SkipSpaces(s, a) == b
  {
  }

  /** Where a digit run stops is fixed by the text. */
  lemma SkipDigitsAt(s: string, a: nat, b: nat)
    requires a <= b <= |s| && AllDigits(s, a, b)
    requires b == |s| || !IsDigit(s[b])
    ensures SkipDigits(s, a) == b
  {
  }

  /** The pattern at `i`: where its digit run starts and ends, if it matches there. */
  function MatchAt(s: string, i: nat): (m: Option<(nat, nat)>)
    requires i <= |s|
    ensures m.Some? ==> i + 4 <= |s| && s[i..i + 4] == IdKey
    ensures m.Some? ==> s[i] == '"' && s[i + 1] == 'i' && s[i + 2] == 'd' && s[i + 3] == '"'
    ensures m.Some? ==> i + 5 <= m.value.0 && m.value.0 + MinDigits <= m.value.1 <= |s|
  {
    if i + 4 <= |s| && s[i..i + 4] == IdKey then
      var j := SkipSpaces(s, i + 4);
      if j < |s| && s[j] == ':' then
        var d := SkipSpaces(s, j + 1);
        var e := SkipDigits(s, d);
        if e - d >= MinDigits then Some((d, e)) else None
      else None
    else None
  }

  /** The text from `i` to `e` is `"id"`, white space, a colon at `j`, white
      space, and from `d` a run of at least fifteen digits. */
  predicate IdPattern(s: string, i: nat, j: nat, d: nat, e: nat) {
    i + 4 <= j < d <= e <= |s| && s[i..i + 4] == IdKey && AllSpaces(s, i + 4, j) && s[j] == ':'
    && AllSpaces(s, j + 1, d) && AllDigits(s, d, e) && e - d >= MinDigits
  }

  /** The digit run ending at `e` cannot be extended. */
  predicate Greedy(s: string, e: nat)
    requires e <= |s|
  {
    e == |s| || !IsDigit(s[e])
  }

  lemma DigitNotSpace(c: char)
    requires IsDigit(c)
    ensures !IsSpace(c)
  {
  }

  /** What the scanner finds is a match of the pattern, with the longest digit run. */
  lemma MatchAtSound(s: string, i: nat)
    requires i <= |s| && MatchAt(s, i).Some?
    ensures (exists j :: IdPattern(s, i, j, MatchAt(s, i).value.0, MatchAt(s, i).value.1))
    ensures Greedy(s, MatchAt(s, i).value.1)
  {
    var d, e := MatchAt(s, i).value.0, MatchAt(s, i).value.1;
    var j := SkipSpaces(s, i + 4);
    assert IdPattern(s, i, j, d, e);
  }

  /** Wherever the pattern matches, the scanner finds it, with the same start
      of the digit run and a run at least as long. */
  lemma MatchAtComplete(s: string, i: nat, j: nat, d: nat, e: nat)
    requires IdPattern(s, i, j, d, e)
    ensures MatchAt(s, i).Some?
    ensures MatchAt(s, i).value.0 == d && MatchAt(s, i).value.1 >= e
  {
    SkipSpacesAt(s, i + 4, j);
    DigitNotSpace(s[d]);
    SkipSpacesAt(s, j + 1, d);
  }

  /** `"id":` followed by a whole digit run of fewer than fifteen digits is not a match. */
  lemma ShortRunNoMatch(s: string, i: nat, j: nat, d: nat, e: nat)
    requires i + 4 <= j < d <= e <= |s| && s[i..i + 4] == IdKey && AllSpaces(s, i + 4, j) && s[j] == ':'
    requires AllSpaces(s, j + 1, d) && AllDigits(s, d, e) && Greedy(s, e) && (d == |s| || !IsSpace(s[d]))
    requires e - d < MinDigits
    ensures MatchAt(s, i).None?
  {
    SkipSpacesAt(s, i + 4, j);
    SkipSpacesAt(s, j + 1, d);
    SkipDigitsAt(s, d, e);
  }

  /** `'"id":"$1"'` */
  function Rewritten(digits: string): string {
    "\"id\":\"" + digits + "\""
  }

  /** The rewrite of `s` from `i` on. Its first character is always `s[i]`,
      since both a match and its replacement start with a quote. */
  function SanitizeFrom(s: string, i: nat): (r: string)
    requires i <= |s|
    ensures i < |s| ==> r != [] && r[0] == s[i]
    decreases |s| - i
  {
    if i == |s| then []
    else match MatchAt(s, i)
      case Some((d, e)) => Rewritten(s[d..e]) + SanitizeFrom(s, e)
      case None => [s[i]] + SanitizeFrom(s, i + 1)
  }

  /** `text.replace(/"id"\s*:\s*([0-9]{15,})/g, '"id":"$1"')` */
  function Sanitize(s: string): (r: string)
    ensures s != [] ==> r != [] && r[0] == s[0]
    ensures (forall k :: 0 <= k <= |s| ==> MatchAt(s, k).None?) ==> r == s
  {
    var r := SanitizeFrom(s, 0);
    assert (forall k :: 0 <= k <= |s| ==> MatchAt(s, k).None?) ==> r == s by {
      if forall k :: 0 <= k <= |s| ==> MatchAt(s, k).None? {
        NoMatchUnchanged(s, 0);
      }
    }
    r
  }

  /** Text where the pattern matches nowhere is left as it is. */
  lemma {:induction false} NoMatchUnchanged(s: string, i: nat)
    requires i <= |s|
    requires forall k :: i <= k <= |s| ==> MatchAt(s, k).None?
    ensures SanitizeFrom(s, i) == s[i..]
    decreases |s| - i
  {
    if i < |s| {
      NoMatchUnchanged(s, i + 1);
    }
  }

  /** A stretch of text where the pattern matches nowhere is copied as it is. */
  lemma {:induction false} CopyNoMatch(s: string, a: nat, b: nat)
    requires a <= b <= |s|
    requires forall k :: a <= k < b ==> MatchAt(s, k).None?
    ensures SanitizeFrom(s, a) == s[a..b] + SanitizeFrom(s, b)
    decreases b - a
  {
    if a < b {
      CopyNoMatch(s, a + 1, b);
    }
  }

  /** A stretch without quotes is copied as it is: no match starts in it. */
  lemma CopyPlain(s: string, a: nat, b: nat)
    requires a <= b <= |s|
    requires forall k :: a <= k < b ==> s[k] != '"'
    ensures SanitizeFrom(s, a) == s[a..b] + SanitizeFrom(s, b)
  {
    CopyNoMatch(s, a, b);
  }

  // ---------------------------------------------------------------------------
  // Idempotence

  /** A match directly followed by `id"`: the closing quote of its
      replacement would start a new `"id"`. Well-formed JSON never has this. */
  predicate IdFollows(s: string, e: nat)
    requires e <= |s|
  {
    e + 3 <= |s| && s[e] == 'i' && s[e + 1] == 'd' && s[e + 2] == '"'
  }

  predicate NoIdAfterMatch(s: string) {
    forall i :: 0 <= i <= |s| && MatchAt(s, i).Some? ==> !IdFollows(s, MatchAt(s, i).value.1)
  }

  /** In JSON a number is followed by a comma, a bracket, a brace or white
      space; a text where no digit is followed by `i` meets the condition. */
  lemma NoDigitBeforeI(s: string)
    requires forall k :: 0 <= k < |s| - 1 && IsDigit(s[k]) ==> s[k + 1] != 'i'
    ensures NoIdAfterMatch(s)
  {
    forall i | 0 <= i <= |s| && MatchAt(s, i).Some?
      ensures !IdFollows(s, MatchAt(s, i).value.1)
    {
      var e := MatchAt(s, i).value.1;
      MatchAtSound(s, i);
      assert IsDigit(s[e - 1]);
    }
  }

  /** One copying step of the first pass, seen from a text `t` that holds its output from `p` on. */
  lemma StepCopied(s: string, i: nat, t: string, p: nat)
    requires i < |s| && p <= |t| && t[p..] == SanitizeFrom(s, i) && MatchAt(s, i).None?
    ensures p < |t| && t[p] == s[i] && t[p + 1..] == SanitizeFrom(s, i + 1)
  {
    assert SanitizeFrom(s, i) == [s[i]] + SanitizeFrom(s, i + 1);
    assert t[p + 1..] == t[p..][1..];
  }

  /** One replacing step of the first pass, seen from `t` as in `StepCopied`. */
  lemma StepReplaced(s: string, i: nat, t: string, p: nat) returns (d: nat, e: nat, q: nat)
    requires i < |s| && p <= |t| && t[p..] == SanitizeFrom(s, i) && MatchAt(s, i).Some?
    ensures MatchAt(s, i) == Some((d, e)) && q == p + |Rewritten(s[d..e])|
    ensures q <= |t| && t[p..q] == Rewritten(s[d..e]) && t[q..] == SanitizeFrom(s, e)
  {
    d, e := MatchAt(s, i).value.0, MatchAt(s, i).value.1;
    var seg := Rewritten(s[d..e]);
    q := p + |seg|;
    assert SanitizeFrom(s, i) == seg + SanitizeFrom(s, e);
    assert t[p..][..|seg|] == t[p..q];
    assert t[p..][|seg|..] == t[q..];
  }

  /** Where the first pass copied a character, the second pass finds no match:
      the text it reads there is the text the first pass read. */
  lemma NoNewMatch(s: string, i: nat, t: string, p: nat)
    requires i < |s| && p <= |t| && t[p..] == SanitizeFrom(s, i)
    requires MatchAt(s, i).None?
    ensures MatchAt(t, p).None?
  {
    if p + 4 <= |t| && t[p..p + 4] == IdKey {
      KeyNoNewMatch(s, i, t, p);
    }
  }

  /** The text holds `"id"` at `q`, read character by character. */
  lemma KeyChars(u: string, q: nat)
    requires q + 4 <= |u|
    ensures u[q..q + 4] == IdKey <==> u[q] == '"' && u[q + 1] == 'i' && u[q + 2] == 'd' && u[q + 3] == '"'
  {
    assert u[q..q + 4] == [u[q], u[q + 1], u[q + 2], u[q + 3]];
  }

  /** `NoNewMatch` where the output holds `"id"`: it was copied from a `"id"` of the input. */
  lemma KeyNoNewMatch(s: string, i: nat, t: string, p: nat)
    requires i < |s| && p + 4 <= |t| && t[p..] == SanitizeFrom(s, i)
    requires MatchAt(s, i).None? && t[p..p + 4] == IdKey
    ensures MatchAt(t, p).None?
  {
    KeyChars(t, p);
    KeyCopied(s, i, t, p);
    KeyChars(s, i);
    if MatchAt(s, i + 3).Some? {
      ReplacementAfterKey(s, i + 3, t, p + 3);
    } else {
      StepCopied(s, i + 3, t, p + 3);
      NoNewMatchTail(s, i, t, p);
    }
  }

  /** A key whose closing quote opens a replacement is followed by `i`, not a colon. */
  lemma ReplacementAfterKey(s: string, k: nat, t: string, q: nat)
    requires k < |s| && 3 <= q && q + 1 < |t| && t[q..] == SanitizeFrom(s, k) && MatchAt(s, k).Some?
    requires t[q - 3..q + 1] == IdKey
    ensures MatchAt(t, q - 3).None?
  {
    var d, e, r := StepReplaced(s, k, t, q);
    var seg := Rewritten(s[d..e]);
    assert seg[1] == 'i';
    assert t[q + 1] == t[q..r][1];
    LetterAfterKey(t, q - 3, q + 1);
  }

  /** A key followed at once by a letter is not followed by a colon. */
  lemma LetterAfterKey(t: string, i: nat, a: nat)
    requires a == i + 4 && a < |t| && t[a] == 'i'
    ensures MatchAt(t, i).None?
  {
    assert SkipSpaces(t, a) == a;
  }

  /** A character of the output opens what the first pass produced from the
      same character of the input. */
  lemma FirstOf(s: string, i: nat, t: string, p: nat)
    requires i <= |s| && p < |t| && t[p..] == SanitizeFrom(s, i)
    ensures i < |s| && t[p] == s[i]
  {
    assert t[p..][0] == t[p];
  }

  /** A character other than a quote is copied by the first pass. */
  lemma NextCopied(s: string, i: nat, t: string, p: nat)
    requires i <= |s| && p < |t| && t[p..] == SanitizeFrom(s, i) && t[p] != '"'
    ensures i < |s| && s[i] == t[p] && MatchAt(s, i).None? && t[p + 1..] == SanitizeFrom(s, i + 1)
  {
    FirstOf(s, i, t, p);
    StepCopied(s, i, t, p);
  }

  /** A `"id"` in the output where the first pass copied a character was
      copied from a `"id"` of the input. */
  lemma KeyCopied(s: string, i: nat, t: string, p: nat)
    requires i < |s| && p + 4 <= |t| && t[p..] == SanitizeFrom(s, i) && MatchAt(s, i).None?
    requires t[p] == '"' && t[p + 1] == 'i' && t[p + 2] == 'd' && t[p + 3] == '"'
    ensures i + 4 <= |s| && s[i] == '"' && s[i + 1] == 'i' && s[i + 2] == 'd' && s[i + 3] == '"'
    ensures t[p + 3..] == SanitizeFrom(s, i + 3)
  {
    FirstOf(s, i, t, p);
    StepCopied(s, i, t, p);
    NextCopied(s, i + 1, t, p + 1);
    NextCopied(s, i + 2, t, p + 2);
    FirstOf(s, i + 3, t, p + 3);
  }

  /** A quote-free stretch `s[a..b]` comes out of the first pass as it is, at
      `q..r` of the output, and the output goes on with the character at `b`. */
  lemma CopiedRun(s: string, a: nat, b: nat, t: string, q: nat, r: nat)
    requires a <= b <= |s| && q <= |t| && t[q..] == SanitizeFrom(s, a) && r == q + (b - a)
    requires forall k :: a <= k < b ==> s[k] != '"'
    ensures r <= |t| && t[q..r] == s[a..b]
    ensures b == |s| ==> r == |t|
    ensures b < |s| ==> r < |t| && t[r] == s[b]
  {
    CopyPlain(s, a, b);
    assert t[q..][..b - a] == t[q..r];
    assert t[q..][b - a..] == t[r..];
  }

  /** A character of the stretch `s[a..b]` that `t[q..r]` repeats. */
  lemma CharCarry(s: string, a: nat, b: nat, t: string, q: nat, r: nat, x: nat, qx: nat)
    requires a <= x < b <= |s| && r == q + (b - a) && r <= |t| && t[q..r] == s[a..b]
    requires qx == q + (x - a)
    ensures t[qx] == s[x]
  {
    assert t[qx] == t[q..r][x - a] == s[a..b][x - a];
  }

  /** White space in part of a stretch that `t[q..r]` repeats is white space in `t`. */
  lemma SpacesCarry(s: string, a: nat, b: nat, t: string, q: nat, r: nat, x: nat, y: nat, qx: nat, qy: nat)
    requires a <= x <= y <= b <= |s| && r == q + (b - a) && r <= |t| && t[q..r] == s[a..b]
    requires qx == q + (x - a) && qy == q + (y - a) && AllSpaces(s, x, y)
    ensures AllSpaces(t, qx, qy)
  {
    forall k | qx <= k < qy ensures IsSpace(t[k]) {
      CharCarry(s, a, b, t, q, r, x + (k - qx), k);
    }
  }

  /** Digits in part of a stretch that `t[q..r]` repeats are digits in `t`. */
  lemma DigitsCarry(s: string, a: nat, b: nat, t: string, q: nat, r: nat, x: nat, y: nat, qx: nat, qy: nat)
    requires a <= x <= y <= b <= |s| && r == q + (b - a) && r <= |t| && t[q..r] == s[a..b]
    requires qx == q + (x - a) && qy == q + (y - a) && AllDigits(s, x, y)
    ensures AllDigits(t, qx, qy)
  {
    forall k | qx <= k < qy ensures IsDigit(t[k]) {
      CharCarry(s, a, b, t, q, r, x + (k - qx), k);
    }
  }

  /** `MatchAt` read off from where its white-space and digit runs stop. */
  lemma MatchAtParts(s: string, i: nat, j: nat, d: nat, e: nat)
    requires i + 4 <= |s| && s[i..i + 4] == IdKey && j == SkipSpaces(s, i + 4)
    requires j < |s| && s[j] == ':' && d == SkipSpaces(s, j + 1) && e == SkipDigits(s, d)
    ensures MatchAt(s, i).None? <==> e - d < MinDigits
  {
  }

  /** The white space, colon and digits a match reads hold no quote. */
  lemma PatternHasNoQuote(s: string, i: nat, j: nat, d: nat, e: nat)
    requires i + 4 <= |s| && j == SkipSpaces(s, i + 4)
    requires j < |s| && s[j] == ':' && d == SkipSpaces(s, j + 1) && e == SkipDigits(s, d)
    ensures forall k :: i + 4 <= k < e ==> s[k] != '"'
  {
    forall k | i + 4 <= k < e ensures s[k] != '"' {
      if k < j {
        assert IsSpace(s[k]);
      } else if j < k < d {
        assert IsSpace(s[k]);
      } else if d <= k {
        assert IsDigit(s[k]);
      }
    }
  }

  /** The rest of `NoNewMatch`: after an agreeing `"id"`, the white space, the
      colon and the digit run are copied, and so is the character that ends them. */
  lemma NoNewMatchTail(s: string, i: nat, t: string, p: nat)
    requires i + 4 <= |s| && p + 4 <= |t| && s[i..i + 4] == IdKey && t[p..p + 4] == IdKey
    requires t[p + 4..] == SanitizeFrom(s, i + 4)
    requires MatchAt(s, i).None?
    ensures MatchAt(t, p).None?
  {
    var j := SkipSpaces(s, i + 4);
    if j < |s| && s[j] == ':' {
      NoNewMatchColon(s, i, j, t, p);
    } else {
      var tj := p + 4 + (j - (i + 4));
      CopiedRun(s, i + 4, j, t, p + 4, tj);
      SpacesCarry(s, i + 4, j, t, p + 4, tj, i + 4, j, p + 4, tj);
      SkipSpacesAt(t, p + 4, tj);
    }
  }

  /** `NoNewMatchTail` when the colon is there: the digit run is copied whole. */
  lemma NoNewMatchColon(s: string, i: nat, j: nat, t: string, p: nat)
    requires i + 4 <= |s| && p + 4 <= |t| && s[i..i + 4] == IdKey && t[p..p + 4] == IdKey
    requires t[p + 4..] == SanitizeFrom(s, i + 4)
    requires MatchAt(s, i).None?
    requires j == SkipSpaces(s, i + 4) && j < |s| && s[j] == ':'
    ensures MatchAt(t, p).None?
  {
    var d := SkipSpaces(s, j + 1);
    var e := SkipDigits(s, d);
    PatternHasNoQuote(s, i, j, d, e);
    var te := p + (e - i);
    CopiedRun(s, i + 4, e, t, p + 4, te);
    SameReading(s, i, j, d, e, t, p, p + (j - i), p + (d - i), te);
  }

  /** Two texts that agree from `"id"` through the digit run and on the
      character after it match or fail to match alike. */
  lemma SameReading(s: string, i: nat, j: nat, d: nat, e: nat, t: string, p: nat, tj: nat, td: nat, te: nat)
    requires i + 4 <= |s| && p + 4 <= |t| && s[i..i + 4] == IdKey && t[p..p + 4] == IdKey
    requires j == SkipSpaces(s, i + 4) && j < |s| && s[j] == ':'
    requires d == SkipSpaces(s, j + 1) && e == SkipDigits(s, d)
    requires tj == p + (j - i) && td == p + (d - i) && te == p + (e - i)
    requires te <= |t| && t[p + 4..te] == s[i + 4..e]
    requires e == |s| ==> te == |t|
    requires e < |s| ==> te < |t| && t[te] == s[e]
    ensures MatchAt(t, p).None? <==> MatchAt(s, i).None?
  {
    CharCarry(s, i + 4, e, t, p + 4, te, j, tj);
    SpacesCarry(s, i + 4, e, t, p + 4, te, i + 4, j, p + 4, tj);
    SpacesCarry(s, i + 4, e, t, p + 4, te, j + 1, d, tj + 1, td);
    DigitsCarry(s, i + 4, e, t, p + 4, te, d, e, td, te);
    if d < e {
      CharCarry(s, i + 4, e, t, p + 4, te, d, td);
      DigitNotSpace(s[d]);
    }
    SkipSpacesAt(t, p + 4, tj);
    SkipSpacesAt(t, tj + 1, td);
    SkipDigitsAt(t, td, te);
    MatchAtParts(s, i, j, d, e);
    MatchAtParts(t, p, tj, td, te);
  }

  /** The closing quote of a replacement does not start a match. */
  lemma ClosingQuote(s: string, e: nat, t: string, q: nat)
    requires e <= |s| && 1 <= q <= |t| && t[q..] == SanitizeFrom(s, e)
    requires !IdFollows(s, e)
    ensures MatchAt(t, q - 1).None?
  {
    if e + 2 < |s| && s[e] == 'i' && s[e + 1] == 'd' {
      StepCopied(s, e, t, q);
      StepCopied(s, e + 1, t, q + 1);
    } else if e + 1 < |s| && s[e] == 'i' {
      StepCopied(s, e, t, q);
    }
  }

  /** No match starts inside a replacement, short of its closing quote:
      `"id":` is followed there by a quote, not a digit. */
  lemma InsideReplacement(t: string, p: nat, digits: string, k: nat)
    requires p + |Rewritten(digits)| <= |t| && t[p..p + |Rewritten(digits)|] == Rewritten(digits)
    requires forall c :: c in digits ==> IsDigit(c)
    requires p <= k < p + |Rewritten(digits)| - 1
    ensures MatchAt(t, k).None?
  {
    var seg := Rewritten(digits);
    assert t[k] == seg[k - p];
    if k == p {
      assert t[p + 4] == seg[4] == ':' && t[p + 5] == seg[5] == '"';
      SkipSpacesAt(t, p + 4, p + 4);
      SkipSpacesAt(t, p + 5, p + 5);
      SkipDigitsAt(t, p + 5, p + 5);
    } else if k == p + 3 {
      assert t[k + 1] == seg[4] == ':';
    } else if k == p + 5 {
      assert t[k + 1] == seg[6];
      if digits != [] {
        assert seg[6] == digits[0] && digits[0] in digits;
      } else {
        assert seg[6] == '"';
      }
    } else if k > p + 5 {
      assert seg[k - p] == digits[k - p - 6] && digits[k - p - 6] in digits;
    }
  }

  /** The text of a replacement is copied by the second pass. */
  lemma SegmentCopied(s: string, i: nat, t: string, p: nat) returns (e: nat, q: nat)
    requires i < |s| && MatchAt(s, i).Some? && NoIdAfterMatch(s)
    requires p <= |t| && t[p..] == SanitizeFrom(s, i)
    ensures i < e <= |s| && p <= q <= |t| && t[q..] == SanitizeFrom(s, e)
    ensures SanitizeFrom(t, p) == t[p..q] + SanitizeFrom(t, q)
  {
    var d;
    d, e, q := StepReplaced(s, i, t, p);
    MatchedDigits(s, i);
    assert !IdFollows(s, e);
    CopySegment(s, e, t, p, q, s[d..e]);
  }

  /** The digits a match captures. */
  lemma MatchedDigits(s: string, i: nat)
    requires i <= |s| && MatchAt(s, i).Some?
    ensures forall c :: c in s[MatchAt(s, i).value.0..MatchAt(s, i).value.1] ==> IsDigit(c)
  {
    var d, e := MatchAt(s, i).value.0, MatchAt(s, i).value.1;
    assert AllDigits(s, d, e);
    forall c | c in s[d..e] ensures IsDigit(c) {
      var k :| 0 <= k < e - d && s[d..e][k] == c;
      assert c == s[d + k];
    }
  }

  /** No match starts anywhere in a replacement, its closing quote included,
      so the second pass copies it. */
  lemma CopySegment(s: string, e: nat, t: string, p: nat, q: nat, digits: string)
    requires forall c :: c in digits ==> IsDigit(c)
    requires q == p + |Rewritten(digits)| && q <= |t| && t[p..q] == Rewritten(digits)
    requires e <= |s| && t[q..] == SanitizeFrom(s, e) && !IdFollows(s, e)
    ensures SanitizeFrom(t, p) == t[p..q] + SanitizeFrom(t, q)
  {
    forall k | p <= k < q ensures MatchAt(t, k).None? {
      if k < q - 1 {
        InsideReplacement(t, p, digits, k);
      } else {
        ClosingQuote(s, e, t, q);
      }
    }
    CopyNoMatch(t, p, q);
  }

  /** A copying step of the second pass that leaves the text as it is. */
  lemma KeepsChar(t: string, p: nat)
    requires p < |t| && MatchAt(t, p).None? && SanitizeFrom(t, p + 1) == t[p + 1..]
    ensures SanitizeFrom(t, p) == t[p..]
  {
    assert t[p..] == [t[p]] + t[p + 1..];
  }

  /** The second pass reproduces what the first pass produced from `i` on. */
  lemma {:induction false} StableFrom(s: string, i: nat, t: string, p: nat)
    requires i <= |s| && p <= |t| && t[p..] == SanitizeFrom(s, i)
    requires NoIdAfterMatch(s)
    ensures SanitizeFrom(t, p) == t[p..]
    decreases |s| - i
  {
    if i == |s| {
      assert p == |t|;
    } else if MatchAt(s, i).None? {
      CopyStep(s, i, t, p);
      StableFrom(s, i + 1, t, p + 1);
      KeepsChar(t, p);
    } else {
      var e, q := SegmentCopied(s, i, t, p);
      StableFrom(s, e, t, q);
      JoinSegment(t, p, q);
    }
  }

  /** A copying step of the first pass, and the second pass finds no match there. */
  lemma CopyStep(s: string, i: nat, t: string, p: nat)
    requires i < |s| && p <= |t| && t[p..] == SanitizeFrom(s, i) && MatchAt(s, i).None?
    ensures p < |t| && MatchAt(t, p).None? && t[p + 1..] == SanitizeFrom(s, i + 1)
  {
    NoNewMatch(s, i, t, p);
    StepCopied(s, i, t, p);
  }

  /** A segment the second pass copies, before a tail it leaves as it is. */
  lemma JoinSegment(t: string, p: nat, q: nat)
    requires p <= q <= |t| && SanitizeFrom(t, q) == t[q..]
    requires SanitizeFrom(t, p) == t[p..q] + SanitizeFrom(t, q)
    ensures SanitizeFrom(t, p) == t[p..]
  {
    assert t[p..] == t[p..q] + t[q..];
  }

  /** Rewriting twice is rewriting once, for a text where no match is
      directly followed by `id"`. */
  lemma SanitizeIdempotent(s: string)
    requires NoIdAfterMatch(s)
    ensures Sanitize(Sanitize(s)) == Sanitize(s)
  {
    StableFrom(s, 0, Sanitize(s), 0);
  }
}
