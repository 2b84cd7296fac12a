/**
 * String helpers with the semantics of the JavaScript built-ins the bot uses:
 * `trim`, `split` with a literal separator, `join`, `slice`, `replaceAll`,
 * decimal formatting of numbers and `parseInt`.
 */
module Strings {
  import opened Wrappers
  import opened Sorting

  /**
   * `s || fallback` for an optional text: the text when it is present and
   * non-empty, the fallback otherwise.
   */
  function OrElse(s: Option<string>, fallback: string): (r: string)
    ensures s.Some? && s.value != "" ==> r == s.value
    ensures !(s.Some? && s.value != "") ==> r == fallback
  {
    if s.Some? && s.value != "" then s.value else fallback
  }

  /** The characters JavaScript's `trim` and the regular expression `\s` treat as white space. */
  predicate IsSpace(c: char) {
    || c == ' ' || c == '\t' || c == '\n' || c == '\r' || c == '\U{0B}' || c == '\U{0C}'
    || c == '\U{A0}' || c == '\U{1680}' || ('\U{2000}' <= c <= '\U{200A}')
    || c == '\U{2028}' || c == '\U{2029}' || c == '\U{202F}' || c == '\U{205F}'
    || c == '\U{3000}' || c == '\U{FEFF}'
  }

  function TrimStart(s: string): (r: string)
    ensures |r| <= |s|
    ensures r == [] || !IsSpace(r[0])
    ensures forall i :: 0 <= i < |s| - |r| ==> IsSpace(s[i])
  {
    if s == [] || !IsSpace(s[0]) then s else TrimStart(s[1..])
  }

  function TrimEnd(s: string): (r: string)
    ensures |r| <= |s|
    ensures r == [] || (r[0] == s[0] && !IsSpace(r[|r| - 1]))
    ensures forall i :: |r| <= i < |s| ==> IsSpace(s[i])
  {
    if s == [] || !IsSpace(s[|s| - 1]) then s else TrimEnd(s[..|s| - 1])
  }

  /** Trimming the start leaves a suffix. */
  lemma {:induction false} TrimStartIsSuffix(s: string)
    ensures TrimStart(s) == s[|s| - |TrimStart(s)|..]
  {
    if s != [] && IsSpace(s[0]) {
      TrimStartIsSuffix(s[1..]);
    }
  }

  /** Trimming the end leaves a prefix. */
  lemma {:induction false} TrimEndIsPrefix(s: string)
    ensures TrimEnd(s) == s[..|TrimEnd(s)|]
  {
    if s != [] && IsSpace(s[|s| - 1]) {
      TrimEndIsPrefix(s[..|s| - 1]);
    }
  }

  /** `String.prototype.trim`. */
  function Trim(s: string): (r: string)
    ensures |r| <= |s|
    ensures r == [] || (!IsSpace(r[0]) && !IsSpace(r[|r| - 1]))
  {
    TrimEnd(TrimStart(s))
  }

  /** A string without surrounding white space is its own trim. */
  lemma TrimIdentity(s: string)
    requires s == [] || (!IsSpace(s[0]) && !IsSpace(s[|s| - 1]))
    ensures Trim(s) == s
  {
  }

  /** `s || null` for a string that may be absent: the empty string counts as absent. */
  function OrNull(s: Option<string>): (r: Option<string>)
    ensures r.Some? <==> s.Some? && s.value != ""
    ensures r.Some? ==> r == s
  {
    if s.Some? && s.value != "" then s else None
  }

  /** `s.slice(0, n)`. */
  function Take(s: string, n: nat): (r: string)
    ensures |r| == if |s| <= n then |s| else n
    ensures r <= s
  {
    if |s| <= n then s else s[..n]
  }

  /** `s.slice(-n)` applied only when `s` is longer than `n`: the last `n` characters. */
  function TakeLast(s: string, n: nat): (r: string)
    ensures |r| == if |s| <= n then |s| else n
    ensures r == s[|s| - |r|..]
  {
    if |s| <= n then s else s[|s| - n..]
  }

  predicate EndsWith(s: string, suffix: string) {
    |suffix| <= |s| && s[|s| - |suffix|..] == suffix
  }

  /** A concatenation ends with its right-hand part. */
  lemma EndsWithConcat(a: string, b: string)
    ensures EndsWith(a + b, b)
  {
    assert (a + b)[|a + b| - |b|..] == b;
  }

  /** ASCII lower-casing, the part of `toLowerCase` the model relies on. */
  function LowerChar(c: char): char {
    if 'A' <= c <= 'Z' then (c as int + 32) as char else c
  }

  function Lower(s: string): (r: string)
    ensures |r| == |s| && forall i :: 0 <= i < |s| ==> r[i] == LowerChar(s[i])
  {
    if s == [] then [] else [LowerChar(s[0])] + Lower(s[1..])
  }

  /**
   * `s.split(sep)` for a non-empty literal separator: occurrences are found
   * left to right and do not overlap.
   */
  function Split(s: string, sep: string): (parts: seq<string>)
    requires sep != []
    ensures parts != []
    decreases |s|
  {
    if |sep| <= |s| && s[..|sep|] == sep then
      [""] + Split(s[|sep|..], sep)
    else if s == [] then
      [""]
    else
      var rest := Split(s[1..], sep);
      [[s[0]] + rest[0]] + rest[1..]
  }

  /** `parts.join(sep)`. */
  function Join(parts: seq<string>, sep: string): string {
    if parts == [] then ""
    else if |parts| == 1 then parts[0]
    else parts[0] + sep + Join(parts[1..], sep)
  }

  /** A join starts with its first part, so it is empty only when that part is. */
  lemma JoinStartsWithFirst(parts: seq<string>, sep: string)
    requires parts != []
    ensures parts[0] <= Join(parts, sep)
  {
  }

  lemma JoinCons(x: string, rest: seq<string>, sep: string)
    requires rest != []
    ensures Join([x] + rest, sep) == x + sep + Join(rest, sep)
  {
    assert ([x] + rest)[1..] == rest;
  }

  lemma JoinAppend(parts: seq<string>, x: string, sep: string)
    requires parts != []
    ensures Join(parts + [x], sep) == Join(parts, sep) + sep + x
  {
    if |parts| == 1 {
      assert parts + [x] == [parts[0], x];
    } else {
      assert (parts + [x])[1..] == parts[1..] + [x];
      JoinAppend(parts[1..], x, sep);
    }
  }

  /** Joining the pieces of a split with the same separator gives back the original string. */
  lemma {:induction false} JoinSplit(s: string, sep: string)
    requires sep != []
    ensures Join(Split(s, sep), sep) == s
    decreases |s|, 1
  {
    if |sep| <= |s| && s[..|sep|] == sep {
      JoinSplitAtSeparator(s, sep);
    } else if s != [] {
      JoinSplitAtChar(s, sep);
    }
  }

  lemma {:induction false} JoinSplitAtSeparator(s: string, sep: string)
    requires sep != [] && |sep| <= |s| && s[..|sep|] == sep
    ensures Join(Split(s, sep), sep) == s
    decreases |s|, 0
  {
    var tail := s[|sep|..];
    var parts := Split(tail, sep);
    assert Split(s, sep) == [""] + parts;
    JoinSplit(tail, sep);
    JoinCons("", parts, sep);
    assert s == s[..|sep|] + tail;
  }

  lemma {:induction false} JoinSplitAtChar(s: string, sep: string)
    requires sep != [] && s != [] && !(|sep| <= |s| && s[..|sep|] == sep)
    ensures Join(Split(s, sep), sep) == s
    decreases |s|, 0
  {
    var rest := Split(s[1..], sep);
    assert Split(s, sep) == [[s[0]] + rest[0]] + rest[1..];
    JoinSplit(s[1..], sep);
    JoinPrepend(s[0], rest, sep);
    assert s == [s[0]] + s[1..];
  }

  /** Putting a character in front of the first part puts it in front of the joined text. */
  lemma JoinPrepend(c: char, parts: seq<string>, sep: string)
    requires parts != []
    ensures Join([[c] + parts[0]] + parts[1..], sep) == [c] + Join(parts, sep)
  {
    if |parts| > 1 {
      assert parts == [parts[0]] + parts[1..];
      JoinCons(parts[0], parts[1..], sep);
      JoinCons([c] + parts[0], parts[1..], sep);
    }
  }

  /** Every piece of a split on a one-character separator is free of that character. */
  lemma {:induction false} SplitPiecesAvoidSeparator(s: string, c: char)
    ensures forall k :: 0 <= k < |Split(s, [c])| ==> c !in Split(s, [c])[k]
    decreases |s|
  {
    if s != [] {
      SplitPiecesAvoidSeparator(s[1..], c);
    }
  }

  /** Splitting on a character what was joined with it gives the pieces back, when no piece holds that character. */
  lemma {:induction false} SplitJoin(words: seq<string>, c: char)
    requires words != []
    requires forall i :: 0 <= i < |words| ==> c !in words[i]
    ensures Split(Join(words, [c]), [c]) == words
    decreases |words|
  {
    if |words| == 1 {
      SplitWord(words[0], "", c);
      assert words[0] + "" == words[0];
    } else {
      var rest := Join(words[1..], [c]);
      assert Join(words, [c]) == words[0] + ([c] + rest);
      SplitWord(words[0], [c] + rest, c);
      assert ([c] + rest)[1..] == rest;
      SplitJoin(words[1..], c);
      assert words == [words[0]] + words[1..];
    }
  }

  /** A piece without the separator, up to a separator (or the end), is the first piece of the split. */
  lemma {:induction false} SplitWord(w: string, rest: string, c: char)
    requires c !in w
    requires rest == [] || rest[0] == c
    ensures rest == [] ==> Split(w + rest, [c]) == [w]
    ensures rest != [] ==> Split(w + rest, [c]) == [w] + Split(rest[1..], [c])
    decreases |w|
  {
    if w == [] {
      assert w + rest == rest;
      if rest != [] {
        assert rest[..1] == [c];
      }
    } else {
      assert (w + rest)[1..] == w[1..] + rest;
      assert (w + rest)[0] == w[0];
      assert w[0] in w;
      assert (w + rest)[..1] != [c];
      SplitWord(w[1..], rest, c);
      assert [w[0]] + w[1..] == w;
    }
  }

  predicate NonEmpty(s: string) {
    s != ""
  }

  /** A non-empty string with no white space at either end. */
  predicate Trimmed(s: string) {
    s != "" && !IsSpace(s[0]) && !IsSpace(s[|s| - 1])
  }

  /** Every piece trimmed, in order. */
  function TrimAll(ss: seq<string>): (r: seq<string>)
    ensures |r| == |ss| && forall i :: 0 <= i < |ss| ==> r[i] == Trim(ss[i])
    ensures forall x :: x in r ==> x == [] || (!IsSpace(x[0]) && !IsSpace(x[|x| - 1]))
  {
    if ss == [] then [] else [Trim(ss[0])] + TrimAll(ss[1..])
  }

  /** `s.split(',').map(x => x.trim()).filter(Boolean)`: the comma-separated items, trimmed, without empty ones. */
  function CommaList(s: string): (r: seq<string>)
    ensures forall x :: x in r ==> Trimmed(x)
  {
    Filter(TrimAll(Split(s, ",")), NonEmpty)
  }

  /** A list written out with commas is read back item for item. */
  lemma CommaListRoundTrip(items: seq<string>)
    requires forall i :: 0 <= i < |items| ==> Trimmed(items[i]) && ',' !in items[i]
    ensures CommaList(Join(items, ",")) == items
  {
    if items == [] {
      assert Split("", ",") == [""];
      assert TrimAll([""]) == [""];
    } else {
      SplitJoin(items, ',');
      assert Split(Join(items, ","), ",") == items;
      TrimAllKeeps(items);
      assert forall x :: x in items ==> NonEmpty(x) by {
        forall x | x in items ensures NonEmpty(x) {
          var i :| 0 <= i < |items| && items[i] == x;
        }
      }
      FilterAll(items, NonEmpty);
    }
  }

  /** Pieces already trimmed are left as they are. */
  lemma {:induction false} TrimAllKeeps(items: seq<string>)
    requires forall i :: 0 <= i < |items| ==> Trimmed(items[i])
    ensures TrimAll(items) == items
    decreases |items|
  {
    if items != [] {
      assert Trimmed(items[0]);
      TrimIdentity(items[0]);
      assert forall i :: 0 <= i < |items[1..]| ==> Trimmed(items[1..][i]) by {
        forall i | 0 <= i < |items[1..]| ensures Trimmed(items[1..][i]) {
          assert items[1..][i] == items[i + 1];
        }
      }
      TrimAllKeeps(items[1..]);
      assert [items[0]] + items[1..] == items;
    }
  }

  /** `s.replaceAll(pat, repl)` for a non-empty literal pattern: a single left-to-right pass. */
  function ReplaceAll(s: string, pat: string, repl: string): string
    requires pat != []
    decreases |s|
  {
    if s == [] then []
    else if pat <= s then repl + ReplaceAll(s[|pat|..], pat, repl)
    else [s[0]] + ReplaceAll(s[1..], pat, repl)
  }

  /** `s.replace(pat, repl)`: only the first occurrence is replaced. */
  function ReplaceFirst(s: string, pat: string, repl: string): string
    requires pat != []
    decreases |s|
  {
    if s == [] then []
    else if pat <= s then repl + s[|pat|..]
    else [s[0]] + ReplaceFirst(s[1..], pat, repl)
  }

  /** Whether `pat` occurs in `s`. */
  predicate Contains(s: string, pat: string) {
    pat <= s || (s != [] && Contains(s[1..], pat))
  }

  /** A string that does not contain the pattern is left as it is by `replaceAll`. */
  lemma {:induction false} ReplaceAllAbsent(s: string, pat: string, repl: string)
    requires pat != [] && !Contains(s, pat)
    ensures ReplaceAll(s, pat, repl) == s
    decreases |s|
  {
    if s != [] {
      ReplaceAllAbsent(s[1..], pat, repl);
    }
  }

  /** `replace` leaves a string alone when the pattern's first character does not occur in it. */
  lemma {:induction false} ReplaceFirstAbsent(s: string, pat: string, repl: string)
    requires pat != [] && pat[0] !in s
    ensures ReplaceFirst(s, pat, repl) == s
    decreases |s|
  {
    if s != [] {
      assert s[0] != pat[0];
      ReplaceFirstAbsent(s[1..], pat, repl);
    }
  }

  function DigitChar(d: nat): char
    requires d < 10
  {
    "0123456789"[d]
  }

  predicate IsDigit(c: char) { '0' <= c <= '9' }

  function DigitValue(c: char): nat
    requires IsDigit(c)
  {
    c as int - '0' as int
  }

  /** Decimal text of a natural number, as `String(n)` prints it. */
  function NatToString(n: nat): (r: string)
    ensures r != [] && forall i :: 0 <= i < |r| ==> IsDigit(r[i])
  {
    if n < 10 then [DigitChar(n)] else NatToString(n / 10) + [DigitChar(n % 10)]
  }

  /** Decimal text of an integer, as `String(n)` prints it. */
  function IntToString(n: int): string {
    if n < 0 then "-" + NatToString(-n) else NatToString(n)
  }

  predicate AllDigits(s: string) {
    forall i :: 0 <= i < |s| ==> IsDigit(s[i])
  }

  /** The value of a string of decimal digits. */
  function DigitsValue(s: string): nat
    requires AllDigits(s)
  {
    if s == [] then 0 else DigitsValue(s[..|s| - 1]) * 10 + DigitValue(s[|s| - 1])
  }

  /** Reading back a printed natural number gives the number. */
  lemma {:induction false} DigitsValueOfNatToString(n: nat)
    ensures DigitsValue(NatToString(n)) == n
  {
    if n >= 10 {
      var r := NatToString(n);
      assert r[..|r| - 1] == NatToString(n / 10);
      DigitsValueOfNatToString(n / 10);
    }
  }

  /** The maximal run of decimal digits at the start of `s`. */
  function LeadingDigits(s: string): (r: string)
    ensures r <= s && AllDigits(r)
    ensures |r| == |s| || !IsDigit(s[|r|])
  {
    if s != [] && IsDigit(s[0]) then [s[0]] + LeadingDigits(s[1..]) else []
  }

  /**
   * `parseInt(s, 10)`: leading white space, an optional sign and the longest
   * run of digits; `None` stands for `NaN`. `-0` reads as 0.
   */
  function ParseInt(s: string): Option<int> {
    var t := TrimStart(s);
    var neg := t != [] && t[0] == '-';
    var body := if t != [] && (t[0] == '-' || t[0] == '+') then t[1..] else t;
    var digits := LeadingDigits(body);
    if digits == [] then None
    else
      var v: int := DigitsValue(digits);
      Some(if neg then -v else v)
  }

  lemma LeadingDigitsOfDigits(s: string)
    requires AllDigits(s)
    ensures LeadingDigits(s) == s
  {
  }

  /** Reading back the printed index gives the index. */
  lemma ParseIntOfNatToString(n: nat)
    ensures ParseInt(NatToString(n)) == Some(n)
  {
    var s := NatToString(n);
    assert !IsSpace(s[0]) && s[0] != '-' && s[0] != '+';
    assert TrimStart(s) == s;
    LeadingDigitsOfDigits(s);
    DigitsValueOfNatToString(n);
  }
}
