/** Python's `str.strip`, with and without an argument, on `seq<char>`.

    `s.strip()` removes leading and trailing characters for which
    `str.isspace` holds; `s.strip(chars)` removes leading and trailing
    characters that occur in `chars`. Both keep everything between the first
    and the last kept character untouched. */
module Text {

  /** `str.isspace` for one character: the ASCII controls tab to carriage
      return and file to unit separator, the space, next line, no-break
      space, ogham space mark, the spaces from en quad to hair space, line
      and paragraph separators, narrow no-break space, medium mathematical
      space and ideographic space (29 characters in all). */
  predicate IsSpace(c: char) {
    || '\t' <= c <= '\r'
    || '\U{1C}' <= c <= ' '
    || c == '\U{85}' || c == '\U{A0}' || c == '\U{1680}'
    || '\U{2000}' <= c <= '\U{200A}'
    || c == '\U{2028}' || c == '\U{2029}' || c == '\U{202F}' || c == '\U{205F}' || c == '\U{3000}'
  }

  /** The characters `str.strip()` removes. */
  const Whitespace: set<char> := set c: char | IsSpace(c)

  /** The characters of the argument `'"\''` given to `strip` for API keys. */
  const Quotes: set<char> := {'"', '\''}

  /** Every character of `s` is in `p`. */
  predicate All(s: string, p: set<char>) {
    forall k :: 0 <= k < |s| ==> s[k] in p
  }

  /** Length of the longest prefix of `s` made of characters in `drop`. */
  function LeadingRun(s: string, drop: set<char>): (n: nat)
    ensures n <= |s|
    ensures forall k :: 0 <= k < n ==> s[k] in drop
    ensures n < |s| ==> s[n] !in drop
  {
    if s == [] || s[0] !in drop then 0 else 1 + LeadingRun(s[1..], drop)
  }

  /** Length of the longest suffix of `s` made of characters in `drop`. */
  function TrailingRun(s: string, drop: set<char>): (n: nat)
    ensures n <= |s|
    ensures forall k :: |s| - n <= k < |s| ==> s[k] in drop
    ensures n < |s| ==> s[|s| - 1 - n] !in drop
  {
    if s == [] || s[|s| - 1] !in drop then 0 else 1 + TrailingRun(s[..|s| - 1], drop)
  }

  /** `s.strip(chars)` where `drop` holds the characters of `chars`:
      the result is `s` with a droppable prefix and a droppable suffix cut
      off, and it neither starts nor ends with a droppable character. */
  function StripWith(s: string, drop: set<char>): (r: string)
    ensures |r| <= |s|
    ensures r == [] || (r[0] !in drop && r[|r| - 1] !in drop)
    ensures exists p, q :: s == p + r + q && All(p, drop) && All(q, drop)
  {
    var i := LeadingRun(s, drop);
    var t := TrailingRun(s[i..], drop);
    StripBounds(s, drop, i, t);
    s[i..|s| - t]
  }

  /** The cut made by `StripWith` keeps a middle part with non-droppable
      ends and removes only droppable characters. */
  lemma StripBounds(s: string, drop: set<char>, i: nat, t: nat)
    requires i == LeadingRun(s, drop) && t == TrailingRun(s[i..], drop)
    ensures i <= |s| - t
    ensures i < |s| - t ==> s[i] !in drop && s[|s| - t - 1] !in drop
    ensures s == s[..i] + s[i..|s| - t] + s[|s| - t..]
    ensures All(s[..i], drop) && All(s[|s| - t..], drop)
  {
    var rest := s[i..];
    assert i < |s| - t ==> s[|s| - t - 1] == rest[|rest| - 1 - t];
    assert All(s[..i], drop) by {
      forall k | 0 <= k < i ensures s[..i][k] in drop {
        assert s[..i][k] == s[k];
      }
    }
    var tail := s[|s| - t..];
    assert All(tail, drop) by {
      forall k | 0 <= k < t ensures tail[k] in drop {
        assert tail[k] == rest[|rest| - t + k];
      }
    }
    ThreeParts(s, i, |s| - t);
  }

  /** A string is its prefix, middle and suffix at any two cut points. Kept
      as a lemma of its own: proved inside `StripBounds`, the same fact sits
      among that lemma's quantifiers and costs far more. */
  lemma ThreeParts(s: string, i: nat, j: nat)
    requires i <= j <= |s|
    ensures s == s[..i] + s[i..j] + s[j..]
  {
  }

  /** `s.strip()` */
  function Strip(s: string): string {
    StripWith(s, Whitespace)
  }

  /** `s.strip('"\'')`, applied to every Murf API key before it is sent */
  function StripQuotes(s: string): string {
    StripWith(s, Quotes)
  }

  /** Stripping yields the empty string exactly when every character of the
      input is droppable. */
  lemma StripEmptyIff(s: string, drop: set<char>)
    ensures StripWith(s, drop) == [] <==> All(s, drop)
  {
    var i := LeadingRun(s, drop);
    var t := TrailingRun(s[i..], drop);
    StripBounds(s, drop, i, t);
    // a non-empty middle would start with a character that both is and is
    // not droppable
    assert i < |s| ==> s[i..][0] == s[i];
    if All(s, drop) {
      assert i == |s|;
    }
  }

  /** A string that neither starts nor ends with a droppable character is
      left as it is; in particular stripping twice is stripping once. */
  lemma StripKeepsTrimmed(s: string, drop: set<char>)
    requires s == [] || (s[0] !in drop && s[|s| - 1] !in drop)
    ensures StripWith(s, drop) == s
  {
    if s != [] {
      assert LeadingRun(s, drop) == 0;
      assert s[0..] == s;
      assert TrailingRun(s, drop) == 0;
    }
  }

  lemma StripIdempotent(s: string, drop: set<char>)
    ensures StripWith(StripWith(s, drop), drop) == StripWith(s, drop)
  {
    StripKeepsTrimmed(StripWith(s, drop), drop);
  }

  /** A quote inside the key is kept: only the ends are stripped. */
  lemma StripQuotesKeepsInterior()
    ensures StripQuotes("\"a'b\"") == "a'b"
  {
    var s := "\"a'b\"";
    assert LeadingRun(s, Quotes) == 1 by { assert LeadingRun(s[1..], Quotes) == 0; }
    var rest := s[1..];
    assert rest == "a'b\"";
    assert TrailingRun(rest, Quotes) == 1 by {
      assert rest[..|rest| - 1] == "a'b";
      assert TrailingRun("a'b", Quotes) == 0;
    }
  }

  /** `str(i)` for an integer: its decimal digits, after a `-` when negative. */
  function IntToString(i: int): (r: string)
    ensures r != []
    ensures i < 0 <==> r[0] == '-'
    ensures
      var digits := if i < 0 then r[1..] else r;
      && digits != []
      && (forall k :: 0 <= k < |digits| ==> '0' <= digits[k] <= '9')
      && (digits[0] == '0' ==> digits == "0")
      && DigitsValue(digits) == if i < 0 then -i else i
  {
    if i < 0 then
      var digits := NatToString(-i);
      assert ("-" + digits)[1..] == digits;
      "-" + digits
    else NatToString(i)
  }

  /** The number a string of decimal digits denotes, read most significant
      digit first. */
  function DigitsValue(s: string): int {
    if s == [] then 0 else DigitsValue(s[..|s| - 1]) * 10 + (s[|s| - 1] as int - '0' as int)
  }

  /** The decimal digits of `n`, without leading zeros: reading them back
      gives `n`. */
  function NatToString(n: nat): (r: string)
    ensures r != [] && forall k :: 0 <= k < |r| ==> '0' <= r[k] <= '9'
    ensures DigitsValue(r) == n
    ensures r[0] == '0' ==> r == "0"
  {
    var digit := ['0' + (n % 10) as char];
    if n < 10 then
      assert digit[..0] == [];
      digit
    else
      var high := NatToString(n / 10);
      assert (high + digit)[..|high + digit| - 1] == high;
      high + digit
  }
}
