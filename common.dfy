/** Shared vocabulary of the model: optional values, JSON payloads with
    JavaScript truthiness, and the sequence and string operations that the
    application code performs through the JavaScript standard library
    (`filter`, `map`, `reduce`, stable `sort`, `split`, `join`, `includes`,
    `startsWith`, `toLowerCase`). */
module Common {

  datatype Option<+T> = None | Some(value: T)

  /** A JSON value as the HTTP layer handles it. Numbers are integers: every
      amount in this application is an integer number of cents. */
  datatype Json =
    | JNull
    | JBool(b: bool)
    | JNum(n: int)
    | JStr(s: string)
    | JArr(items: seq<Json>)
    | JObj(fields: seq<(string, Json)>)

  /** JavaScript truthiness of a JSON value: `null`, `false`, `0` and `""` are
      falsy, every array and object (even an empty one) is truthy. */
  predicate Truthy(j: Json)
  {
    match j
    case JNull => false
    case JBool(b) => b
    case JNum(n) => n != 0
    case JStr(s) => s != ""
    case JArr(_) => true
    case JObj(_) => true
  }

  // ---------------------------------------------------------------------
  // JSON.stringify
  // ---------------------------------------------------------------------

  function DigitChar(d: nat): char
    requires d < 10
  {
    "0123456789"[d]
  }

  /** Decimal notation of a natural number, without leading zeros. */
  function NatToString(n: nat): (r: string)
    ensures |r| >= 1
    ensures forall k :: 0 <= k < |r| ==> '0' <= r[k] <= '9'
    decreases n
  {
    if n < 10 then [DigitChar(n)] else NatToString(n / 10) + [DigitChar(n % 10)]
  }

  function IntToString(i: int): string
  {
    if i < 0 then "-" + NatToString(-i) else NatToString(i)
  }

  function HexDigit(d: nat): char
    requires d < 16
  {
    "0123456789abcdef"[d]
  }

  /** The JSON escape of one character inside a string literal. */
  function EscapeChar(c: char): string
  {
    if c == '"' then "\\\""
    else if c == '\\' then "\\\\"
    else if c == '\n' then "\\n"
    else if c == '\r' then "\\r"
    else if c == '\t' then "\\t"
    else if c as int == 8 then "\\b"
    else if c as int == 12 then "\\f"
    else if c < ' ' then "\\u00" + [HexDigit(c as nat / 16), HexDigit(c as nat % 16)]
    else [c]
  }

  function Escape(s: string): string
    decreases |s|
  {
    if s == [] then [] else EscapeChar(s[0]) + Escape(s[1..])
  }

  function Quote(s: string): string
  {
    "\"" + Escape(s) + "\""
  }

  /** `JSON.stringify` of a value. */
  function Stringify(j: Json): string
    decreases j
  {
    match j
    case JNull => "null"
    case JBool(b) => if b then "true" else "false"
    case JNum(n) => IntToString(n)
    case JStr(s) => Quote(s)
    case JArr(items) =>
      "[" + Join(seq(|items|, i requires 0 <= i < |items| => Stringify(items[i])), ",") + "]"
    case JObj(fields) =>
      "{" + Join(seq(|fields|, i requires 0 <= i < |fields| =>
                       Quote(fields[i].0) + ":" + Stringify(fields[i].1)), ",") + "}"
  }

  // ---------------------------------------------------------------------
  // Sequences: filter, map, reduce-to-sum, stable sort
  // ---------------------------------------------------------------------

  function Last<T>(s: seq<T>): T
    requires s != []
  {
    s[|s| - 1]
  }

  function DropLast<T>(s: seq<T>): seq<T>
    requires s != []
  {
    s[..|s| - 1]
  }

  /** `Array.prototype.filter`. Defined from the end, so that extending the
      input by one element extends the result by at most that element. */
  function Filter<T>(s: seq<T>, p: T -> bool): (r: seq<T>)
    ensures |r| <= |s|
    ensures forall i :: 0 <= i < |r| ==> r[i] in s && p(r[i])
    ensures forall i :: 0 <= i < |s| && p(s[i]) ==> s[i] in r
    decreases |s|
  {
    if s == [] then []
    else
      assert s == DropLast(s) + [Last(s)];
      var init := Filter(DropLast(s), p);
      if p(Last(s)) then init + [Last(s)] else init
  }

  lemma {:induction false} FilterAppend<T>(s: seq<T>, t: seq<T>, p: T -> bool)
    ensures Filter(s + t, p) == Filter(s, p) + Filter(t, p)
    decreases |t|
  {
    if t == [] {
      assert s + t == s;
    } else {
      assert DropLast(s + t) == s + DropLast(t);
      FilterAppend(s, DropLast(t), p);
    }
  }

  lemma {:induction false} FilterKeepsAll<T>(s: seq<T>, p: T -> bool)
    requires forall i :: 0 <= i < |s| ==> p(s[i])
    ensures Filter(s, p) == s
    decreases |s|
  {
    if s != [] {
      FilterKeepsAll(DropLast(s), p);
    }
  }

  function Map<T, U>(s: seq<T>, f: T -> U): (r: seq<U>)
    ensures |r| == |s|
    ensures forall i :: 0 <= i < |s| ==> r[i] == f(s[i])
  {
    seq(|s|, i requires 0 <= i < |s| => f(s[i]))
  }

  /** `reduce((acc, x) => acc + f(x), 0)`, defined from the end so that a loop
      that adds one element per iteration matches it step by step. */
  function SumOf<T>(s: seq<T>, f: T -> int): int
    decreases |s|
  {
    if s == [] then 0 else SumOf(DropLast(s), f) + f(Last(s))
  }

  lemma {:induction false} SumOfAppend<T>(s: seq<T>, t: seq<T>, f: T -> int)
    ensures SumOf(s + t, f) == SumOf(s, f) + SumOf(t, f)
    decreases |t|
  {
    if t == [] {
      assert s + t == s;
    } else {
      assert DropLast(s + t) == s + DropLast(t);
      SumOfAppend(s, DropLast(t), f);
    }
  }

  lemma SumOfOne<T>(x: T, f: T -> int)
    ensures SumOf([x], f) == f(x)
  {
    assert DropLast([x]) == [];
  }

  /** Summing over the elements a predicate keeps is summing a function that
      is zero on the others. */
  lemma {:induction false} SumOfFilter<T>(s: seq<T>, p: T -> bool, f: T -> int)
    ensures SumOf(Filter(s, p), f) == SumOf(s, x => if p(x) then f(x) else 0)
    decreases |s|
  {
    if s != [] {
      SumOfFilter(DropLast(s), p, f);
      if p(Last(s)) {
        var init := Filter(DropLast(s), p);
        assert DropLast(init + [Last(s)]) == init;
      }
    }
  }

  /** A sum over a sequence depends only on its multiset of elements. */
  lemma {:induction false} SumOfPermutation<T>(s: seq<T>, t: seq<T>, f: T -> int)
    requires multiset(s) == multiset(t)
    ensures SumOf(s, f) == SumOf(t, f)
    decreases |s|
  {
    if s == [] {
      assert |t| == |multiset(t)| == 0;
    } else {
      var x := Last(s);
      assert s == DropLast(s) + [x];
      assert x in multiset(t);
      var i :| 0 <= i < |t| && t[i] == x;
      var rest := t[..i] + t[i + 1..];
      assert t == t[..i] + [x] + t[i + 1..];
      assert multiset(s) == multiset(DropLast(s)) + multiset{x};
      assert multiset(t) == multiset(t[..i]) + multiset{x} + multiset(t[i + 1..]);
      assert multiset(rest) == multiset(t[..i]) + multiset(t[i + 1..]);
      assert multiset(DropLast(s)) == multiset(s) - multiset{x};
      assert multiset(rest) == multiset(t) - multiset{x};
      SumOfPermutation(DropLast(s), rest, f);
      SumOfAppend(t[..i], t[i + 1..], f);
      SumOfAppend(t[..i] + [x], t[i + 1..], f);
      SumOfAppend(t[..i], [x], f);
      SumOfOne(x, f);
    }
  }

  ghost predicate SortedDesc<T>(s: seq<T>, key: T -> int)
  {
    forall i, j :: 0 <= i < j < |s| ==> key(s[i]) >= key(s[j])
  }

  /** Inserts `x` after every element whose key is at least `key(x)`, so
      that elements of equal key keep their order of arrival. */
  function InsertDesc<T>(s: seq<T>, x: T, key: T -> int): (r: seq<T>)
    requires SortedDesc(s, key)
    ensures SortedDesc(r, key)
    ensures multiset(r) == multiset(s) + multiset{x}
    ensures |r| == |s| + 1
    ensures r[0] == x || (s != [] && r[0] == s[0])
    decreases |s|
  {
    if s == [] then [x]
    else if key(s[0]) < key(x) then [x] + s
    else
      var tail := InsertDesc(s[1..], x, key);
      assert s == [s[0]] + s[1..];
      PrependSorted(s[0], tail, key);
      [s[0]] + tail
  }

  /** A head whose key is at least the first key of a sorted list keeps it
      sorted. */
  lemma PrependSorted<T>(h: T, tail: seq<T>, key: T -> int)
    requires SortedDesc(tail, key) && tail != [] && key(h) >= key(tail[0])
    ensures SortedDesc([h] + tail, key)
  {
    var r := [h] + tail;
    forall i, j | 0 <= i < j < |r|
      ensures key(r[i]) >= key(r[j])
    {
      if i == 0 {
        assert r[j] == tail[j - 1];
        assert key(tail[0]) >= key(tail[j - 1]);
      } else {
        assert r[i] == tail[i - 1] && r[j] == tail[j - 1];
      }
    }
  }

  /** The stable `Array.prototype.sort` with the comparator
      `(a, b) => key(b) - key(a)`: largest key first. */
  function SortDesc<T>(s: seq<T>, key: T -> int): (r: seq<T>)
    ensures SortedDesc(r, key)
    ensures multiset(r) == multiset(s)
    ensures |r| == |s|
    decreases |s|
  {
    if s == [] then []
    else
      assert s == DropLast(s) + [Last(s)];
      InsertDesc(SortDesc(DropLast(s), key), Last(s), key)
  }

  // ---------------------------------------------------------------------
  // Strings: includes, startsWith, split, join, toLowerCase
  // ---------------------------------------------------------------------

  predicate OccursAt(s: string, p: string, i: int)
  {
    0 <= i && i + |p| <= |s| && s[i..i + |p|] == p
  }

  /** `String.prototype.includes`; the empty pattern occurs in every string. */
  predicate Contains(s: string, p: string)
  {
    exists i | 0 <= i <= |s| :: OccursAt(s, p, i)
  }

  /** `String.prototype.startsWith`. */
  predicate StartsWith(s: string, p: string)
  {
    |p| <= |s| && s[..|p|] == p
  }

  lemma ContainsEmpty(s: string)
    ensures Contains(s, "")
  {
    assert OccursAt(s, "", 0);
  }

  /** `String.prototype.split` with a non-empty separator: the pieces between
      the non-overlapping occurrences of `sep`, scanned left to right. */
  function Split(s: string, sep: string): (parts: seq<string>)
    requires sep != []
    ensures |parts| >= 1
    decreases |s|
  {
    if |s| < |sep| then [s]
    else if s[..|sep|] == sep then [""] + Split(s[|sep|..], sep)
    else
      var rest := Split(s[1..], sep);
      [[s[0]] + rest[0]] + rest[1..]
  }

  /** `Array.prototype.join`. */
  function Join(parts: seq<string>, sep: string): string
    decreases |parts|
  {
    if |parts| == 0 then ""
    else if |parts| == 1 then parts[0]
    else parts[0] + sep + Join(parts[1..], sep)
  }

  /** Joining after a character is put in front of the first piece is
      putting it in front of the join. */
  lemma JoinConsFirst(c: char, rest: seq<string>, sep: string)
    requires |rest| >= 1
    ensures Join([[c] + rest[0]] + rest[1..], sep) == [c] + Join(rest, sep)
  {
    var parts := [[c] + rest[0]] + rest[1..];
    if |rest| > 1 {
      assert parts[1..] == rest[1..];
    }
  }

  /** Splitting loses nothing: joining the pieces back gives the input. */
  lemma {:induction false} JoinSplit(s: string, sep: string)
    requires sep != []
    ensures Join(Split(s, sep), sep) == s
    decreases |s|
  {
    if |s| < |sep| {
    } else if s[..|sep|] == sep {
      var rest := Split(s[|sep|..], sep);
      JoinSplit(s[|sep|..], sep);
      assert Split(s, sep) == [""] + rest;
      assert ([""] + rest)[1..] == rest;
      assert s == sep + s[|sep|..];
    } else {
      var rest := Split(s[1..], sep);
      JoinSplit(s[1..], sep);
      assert Split(s, sep) == [[s[0]] + rest[0]] + rest[1..];
      JoinConsFirst(s[0], rest, sep);
      assert s == [s[0]] + s[1..];
    }
  }

  /** A string in which the separator's first character never occurs comes
      out of `split` whole. */
  lemma {:induction false} SplitWithoutSeparator(s: string, sep: string)
    requires sep != []
    requires forall k :: 0 <= k < |s| ==> s[k] != sep[0]
    ensures Split(s, sep) == [s]
    decreases |s|
  {
    if |s| >= |sep| {
      assert s[..|sep|][0] == s[0] != sep[0];
      SplitWithoutSeparator(s[1..], sep);
      assert [s[0]] + s[1..] == s;
    }
  }

  /** An occurrence in the tail of a string is an occurrence one place
      further on in the whole string. */
  lemma OccursInTail(s: string, p: string, i: int)
    requires s != [] && 0 <= i
    ensures OccursAt(s[1..], p, i) <==> OccursAt(s, p, i + 1)
  {
    if 0 <= i && i + |p| <= |s| - 1 {
      assert s[1..][i..i + |p|] == s[i + 1..i + 1 + |p|];
    }
  }

  /** A string in which the separator never occurs comes out of `split`
      whole. */
  lemma {:induction false} SplitNoOccurrence(s: string, sep: string)
    requires sep != []
    requires forall i :: !OccursAt(s, sep, i)
    ensures Split(s, sep) == [s]
    decreases |s|
  {
    if |s| >= |sep| {
      assert !OccursAt(s, sep, 0);
      forall i | 0 <= i
        ensures !OccursAt(s[1..], sep, i)
      {
        OccursInTail(s, sep, i);
      }
      SplitNoOccurrence(s[1..], sep);
      assert [s[0]] + s[1..] == s;
    }
  }

  /** Some occurrence is the leftmost one. */
  lemma FirstOccurrence(s: string, p: string, i: int) returns (f: int)
    requires OccursAt(s, p, i)
    ensures 0 <= f <= i && OccursAt(s, p, f)
    ensures forall k :: 0 <= k < f ==> !OccursAt(s, p, k)
    decreases i
  {
    if k :| 0 <= k < i && OccursAt(s, p, k) {
      f := FirstOccurrence(s, p, k);
    } else {
      f := i;
    }
  }

  /** `split` cuts at the leftmost occurrence of the separator and goes on
      splitting what follows it. */
  /** `split` on a string that does not start with the separator: its first
      character joins the first piece of the rest. */
  lemma SplitNotAtStart(s: string, sep: string)
    requires sep != [] && |s| >= |sep| && s[..|sep|] != sep
    ensures var rest := Split(s[1..], sep);
            Split(s, sep) == [[s[0]] + rest[0]] + rest[1..]
  {
  }

  /** No occurrence before `f` in a string means none before `f - 1` in its
      tail. */
  lemma NoEarlierInTail(s: string, sep: string, f: int)
    requires s != [] && 0 < f && forall k :: 0 <= k < f ==> !OccursAt(s, sep, k)
    ensures forall k :: 0 <= k < f - 1 ==> !OccursAt(s[1..], sep, k)
  {
    forall k | 0 <= k < f - 1
      ensures !OccursAt(s[1..], sep, k)
    {
      OccursInTail(s, sep, k);
    }
  }

  lemma {:induction false} SplitAtFirst(s: string, sep: string, f: int)
    requires sep != []
    requires OccursAt(s, sep, f)
    requires forall k :: 0 <= k < f ==> !OccursAt(s, sep, k)
    ensures Split(s, sep) == [s[..f]] + Split(s[f + |sep|..], sep)
    decreases f
  {
    if f == 0 {
      assert s[..|sep|] == sep;
    } else {
      var t := s[1..];
      OccursInTail(s, sep, f - 1);
      NoEarlierInTail(s, sep, f);
      SplitAtFirst(t, sep, f - 1);
      assert !OccursAt(s, sep, 0);
      SplitNotAtStart(s, sep);
      assert t[f - 1 + |sep|..] == s[f + |sep|..];
      assert [s[0]] + t[..f - 1] == s[..f];
    }
  }

  /** Two occurrences of the separator that do not overlap cut a string into
      at least three pieces. */
  lemma SplitTwoOccurrences(s: string, sep: string, i: int, j: int)
    requires sep != []
    requires OccursAt(s, sep, i) && OccursAt(s, sep, j) && i + |sep| <= j
    ensures |Split(s, sep)| >= 3
  {
    var f := FirstOccurrence(s, sep, i);
    SplitAtFirst(s, sep, f);
    var t := s[f + |sep|..];
    assert t[j - f - |sep|..j - f] == s[j..j + |sep|];
    var g := FirstOccurrence(t, sep, j - f - |sep|);
    SplitAtFirst(t, sep, g);
  }

  /** A separator that occurs once cuts a string into the text before it and
      the text after it. */
  lemma SplitOnce(s: string, sep: string, before: string, after: string)
    requires sep != [] && s == before + sep + after
    requires forall i :: OccursAt(s, sep, i) ==> i == |before|
    ensures Split(s, sep) == [before, after]
  {
    var start := |before| + |sep|;
    assert s[|before|..start] == sep;
    SplitAtFirst(s, sep, |before|);
    assert s[start..] == after;
    forall i | 0 <= i
      ensures !OccursAt(after, sep, i)
    {
      if OccursAt(after, sep, i) {
        assert s[start + i..start + i + |sep|] == after[i..i + |sep|];
        assert OccursAt(s, sep, start + i);
      }
    }
    SplitNoOccurrence(after, sep);
    assert s[..|before|] == before;
  }

  /** The first piece of a split on one character is the text up to that
      character's first occurrence, or the whole text when it has none. */
  lemma SplitFirstPiece(value: string, after: string, c: char)
    requires forall k :: 0 <= k < |value| ==> value[k] != c
    requires after == [] || after[0] == c
    ensures Split(value + after, [c])[0] == value
  {
    var s := value + after;
    if after == [] {
      assert s == value;
      SplitWithoutSeparator(value, [c]);
    } else {
      assert s[|value|..|value| + 1] == [c];
      forall k | 0 <= k < |value|
        ensures !OccursAt(s, [c], k)
      {
        assert s[k..k + 1] == [value[k]];
      }
      SplitAtFirst(s, [c], |value|);
      assert s[..|value|] == value;
    }
  }

  function Count(s: string, c: char): nat
    decreases |s|
  {
    if s == [] then 0 else (if s[0] == c then 1 else 0) + Count(s[1..], c)
  }

  /** Splitting on a one-character separator yields one piece more than there
      are occurrences of that character, and the first piece is the text
      before the first occurrence. */
  lemma {:induction false} SplitOnChar(s: string, c: char)
    ensures |Split(s, [c])| == Count(s, c) + 1
    ensures StartsWith(s, Split(s, [c])[0])
    ensures forall k :: 0 <= k < |Split(s, [c])[0]| ==> Split(s, [c])[0][k] != c
    decreases |s|
  {
    if |s| >= 1 {
      SplitOnChar(s[1..], c);
      if s[..1] != [c] {
        assert s[0] != c;
      }
    }
  }

  /** The entries of a string-keyed map that survive a pattern delete: a
      missing or empty pattern removes every key, any other pattern the keys
      that contain it. */
  function WithoutMatches<V>(m: map<string, V>, pattern: Option<string>): map<string, V>
  {
    if pattern.None? || pattern.value == "" then map[]
    else map k | k in m && !Contains(k, pattern.value) :: m[k]
  }

  /** `toLowerCase` on the Basic Latin and Latin-1 letters. */
  function LowerChar(c: char): char
  {
    if 'A' <= c <= 'Z' then (c as int + 32) as char
    else if 'À' <= c <= 'Þ' && c != '×' then (c as int + 32) as char
    else c
  }

  function Lower(s: string): (r: string)
    ensures |r| == |s|
  {
    seq(|s|, i requires 0 <= i < |s| => LowerChar(s[i]))
  }

  /** `String.prototype.length`: the number of UTF-16 code units, one for
      a character of the Basic Multilingual Plane and two for any other. */
  function Utf16Length(s: string): (n: nat)
    ensures |s| <= n <= 2 * |s|
    ensures (forall k :: 0 <= k < |s| ==> s[k] as int <= 0xFFFF) ==> n == |s|
    decreases |s|
  {
    if s == [] then 0
    else Utf16Length(DropLast(s)) + (if Last(s) as int > 0xFFFF then 2 else 1)
  }

  lemma {:induction false} Utf16LengthAppend(a: string, b: string)
    ensures Utf16Length(a + b) == Utf16Length(a) + Utf16Length(b)
    decreases |b|
  {
    if b != [] {
      assert DropLast(a + b) == a + DropLast(b);
      assert Last(a + b) == Last(b);
      Utf16LengthAppend(a, DropLast(b));
    } else {
      assert a + b == a;
    }
  }

  /** A string of characters outside the Basic Multilingual Plane has two
      code units per character. */
  lemma {:induction false} Utf16LengthAstral(s: string)
    requires forall k :: 0 <= k < |s| ==> s[k] as int > 0xFFFF
    ensures Utf16Length(s) == 2 * |s|
    decreases |s|
  {
    if s != [] {
      Utf16LengthAstral(DropLast(s));
    }
  }

  function Repeat(c: char, n: nat): (r: string)
    ensures |r| == n
    ensures forall k :: 0 <= k < n ==> r[k] == c
  {
    seq(n, _ => c)
  }

  function Max(a: int, b: int): int { if a >= b then a else b }
  function Min(a: int, b: int): int { if a <= b then a else b }
  function Abs(a: int): nat { if a < 0 then -a else a }
}
