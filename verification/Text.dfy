/** The string operations of the Rust standard library that the parsers are built from. */
module Text {
  import opened Basics

  predicate Contains(s: string, c: char) {
    exists i :: 0 <= i < |s| && s[i] == c
  }

  predicate StartsWith(s: string, prefix: string) {
    prefix <= s
  }

  /** Index of the first `c`, or the length when there is none. */
  function IndexOf(s: string, c: char): (i: nat)
    ensures i <= |s|
    ensures forall j :: 0 <= j < i ==> s[j] != c
    ensures i < |s| ==> s[i] == c
  {
    if s == "" || s[0] == c then 0 else 1 + IndexOf(s[1..], c)
  }

  /** `s.split(c)`: always at least one part, no part holds the separator. */
  function Split(s: string, c: char): (parts: seq<string>)
    ensures |parts| >= 1
    ensures forall k :: 0 <= k < |parts| ==> !Contains(parts[k], c)
    decreases |s|
  {
    var i := IndexOf(s, c);
    if i == |s| then [s] else [s[..i]] + Split(s[i + 1..], c)
  }

  /** `s.splitn(n, c)`: the last part keeps every remaining separator. */
  function SplitN(s: string, c: char, n: nat): (parts: seq<string>)
    requires n >= 1
    ensures 1 <= |parts| <= n
    decreases n
  {
    var i := IndexOf(s, c);
    if n == 1 || i == |s| then [s] else [s[..i]] + SplitN(s[i + 1..], c, n - 1)
  }

  function Join(parts: seq<string>, c: char): string {
    if |parts| == 0 then ""
    else if |parts| == 1 then parts[0]
    else parts[0] + [c] + Join(parts[1..], c)
  }

  lemma IndexOfFirst(head: string, c: char, tail: string)
    requires !Contains(head, c)
    ensures IndexOf(head + [c] + tail, c) == |head|
  {
    var s := head + [c] + tail;
    assert s[|head|] == c;
    assert forall j :: 0 <= j < |head| ==> s[j] == head[j];
  }

  lemma SplitWhole(s: string, c: char)
    requires !Contains(s, c)
    ensures Split(s, c) == [s]
  {
    assert IndexOf(s, c) == |s|;
  }

  lemma SplitHead(head: string, c: char, tail: string)
    requires !Contains(head, c)
    ensures Split(head + [c] + tail, c) == [head] + Split(tail, c)
  {
    IndexOfFirst(head, c, tail);
    var s := head + [c] + tail;
    hide Contains;
    hide IndexOf;
    assert s[..|head|] == head && s[|head| + 1..] == tail;
  }

  lemma {:induction false} SplitJoin(parts: seq<string>, c: char)
    requires |parts| >= 1
    requires forall k :: 0 <= k < |parts| ==> !Contains(parts[k], c)
    ensures Split(Join(parts, c), c) == parts
  {
    hide Contains;
    hide Split;
    if |parts| == 1 {
      SplitWhole(parts[0], c);
    } else {
      SplitHead(parts[0], c, Join(parts[1..], c));
      SplitJoin(parts[1..], c);
    }
  }

  lemma JoinCons(first: string, rest: seq<string>, c: char)
    requires |rest| >= 1
    ensures Join([first] + rest, c) == first + [c] + Join(rest, c)
  {
    assert ([first] + rest)[1..] == rest;
  }

  lemma {:induction false} JoinSplit(s: string, c: char)
    ensures Join(Split(s, c), c) == s
    decreases |s|
  {
    hide Contains;
    hide IndexOf;
    var i := IndexOf(s, c);
    if i < |s| {
      var tail := s[i + 1..];
      JoinSplit(tail, c);
      var parts := Split(tail, c);
      assert Split(s, c) == [s[..i]] + parts;
      hide Split;
      hide Join;
      JoinCons(s[..i], parts, c);
      assert s == s[..i] + [c] + tail;
    }
  }

  /** Splitting around any separator splits the two sides. */
  lemma {:induction false} SplitConcat(x: string, c: char, y: string)
    ensures Split(x + [c] + y, c) == Split(x, c) + Split(y, c)
    decreases |x|
  {
    hide Split;
    hide IndexOf;
    var i := IndexOf(x, c);
    if i == |x| {
      SplitHead(x, c, y);
      SplitWhole(x, c);
    } else {
      var head, tail := x[..i], x[i + 1..];
      assert !Contains(head, c);
      hide Contains;
      SplitHead(head, c, tail);
      SplitHead(head, c, tail + [c] + y);
      SplitConcat(tail, c, y);
      assert x == head + [c] + tail && x + [c] + y == head + [c] + (tail + [c] + y);
      assert [head] + (Split(tail, c) + Split(y, c)) == ([head] + Split(tail, c)) + Split(y, c);
    }
  }

  lemma CancelFront(c: char, s: string, t: string)
    requires [c] + s == [c] + t
    ensures s == t
  {
    assert ([c] + s)[1..] == s && ([c] + t)[1..] == t;
  }

  lemma CancelBack(s: string, t: string, c: char)
    requires s + [c] == t + [c]
    ensures s == t
  {
    assert (s + [c])[..|s|] == s && (t + [c])[..|t|] == t;
  }

  /** Every part stands between two separators of the text with one put at each end. */
  lemma {:induction false} PartBetweenSeparators(parts: seq<string>, c: char, k: nat) returns (a: string, b: string)
    requires k < |parts|
    ensures [c] + Join(parts, c) + [c] == a + [c] + parts[k] + [c] + b
  {
    if k == 0 {
      a := "";
      b := if |parts| == 1 then "" else Join(parts[1..], c) + [c];
    } else {
      var a', b' := PartBetweenSeparators(parts[1..], c, k - 1);
      a, b := [c] + parts[0] + a', b';
      assert [c] + Join(parts, c) + [c] == [c] + parts[0] + ([c] + Join(parts[1..], c) + [c]);
      assert a + [c] + parts[k] + [c] + b == [c] + parts[0] + (a' + [c] + parts[k] + [c] + b);
    }
  }

  /** What trimming removes is white space, and what it leaves has none at its ends. */
  lemma {:induction false} TrimStartExact(s: string) returns (before: string)
    ensures AllWhitespace(before) && s == before + TrimStart(s)
    ensures TrimStart(s) != "" ==> !IsWhitespace(TrimStart(s)[0])
  {
    if s != "" && IsWhitespace(s[0]) {
      var rest := TrimStartExact(s[1..]);
      before := [s[0]] + rest;
      assert s == [s[0]] + s[1..];
    } else {
      before := "";
    }
  }

  lemma {:induction false} TrimEndExact(s: string) returns (after: string)
    ensures AllWhitespace(after) && s == TrimEnd(s) + after
    ensures TrimEnd(s) != "" ==> !IsWhitespace(TrimEnd(s)[|TrimEnd(s)| - 1])
  {
    if s != "" && IsWhitespace(s[|s| - 1]) {
      var rest := TrimEndExact(s[..|s| - 1]);
      after := rest + [s[|s| - 1]];
      assert s == s[..|s| - 1] + [s[|s| - 1]];
    } else {
      after := "";
    }
  }

  lemma TrimExact(s: string) returns (before: string, after: string)
    ensures AllWhitespace(before) && AllWhitespace(after) && Trimmed(Trim(s)) && s == before + Trim(s) + after
    ensures Trim(s) == "" <==> AllWhitespace(s)
  {
    before := TrimStartExact(s);
    var middle := TrimStart(s);
    after := TrimEndExact(middle);
    if Trim(s) != "" {
      assert middle[0] == Trim(s)[0];
      assert s[|before|] == Trim(s)[0];
    }
  }

  lemma SplitUnfold(s: string, c: char)
    requires IndexOf(s, c) < |s|
    ensures Split(s, c) == [s[..IndexOf(s, c)]] + Split(s[IndexOf(s, c) + 1..], c)
  {
    hide IndexOf;
    hide Contains;
  }

  lemma SplitNUnfold(s: string, c: char, n: nat)
    requires n > 1 && IndexOf(s, c) < |s|
    ensures SplitN(s, c, n) == [s[..IndexOf(s, c)]] + SplitN(s[IndexOf(s, c) + 1..], c, n - 1)
  {
    hide IndexOf;
  }

  lemma SplitNLast(s: string, c: char, n: nat)
    requires n == 1 || (n > 1 && IndexOf(s, c) == |s|)
    ensures SplitN(s, c, n) == [s]
  {
    hide IndexOf;
  }

  lemma SplitLast(s: string, c: char)
    requires IndexOf(s, c) == |s|
    ensures Split(s, c) == [s] && Join([s], c) == s
  {
    hide IndexOf;
    hide Contains;
  }

  /** Cutting into at most n parts keeps the first n - 1 parts of the full split and rejoins the rest. */
  lemma {:induction false} SplitNPrefix(s: string, c: char, n: nat)
    requires n >= 1
    ensures |Split(s, c)| < n ==> SplitN(s, c, n) == Split(s, c)
    ensures |Split(s, c)| >= n ==>
              SplitN(s, c, n) == Split(s, c)[..n - 1] + [Join(Split(s, c)[n - 1..], c)]
    decreases n
  {
    hide Contains;
    hide Join;
    hide IndexOf;
    hide Split;
    hide SplitN;
    var i := IndexOf(s, c);
    if n == 1 {
      JoinSplit(s, c);
      SplitNLast(s, c, n);
      assert Split(s, c)[0..] == Split(s, c);
    } else if i == |s| {
      SplitNLast(s, c, n);
      SplitLast(s, c);
    } else {
      var rest := Split(s[i + 1..], c);
      SplitUnfold(s, c);
      SplitNUnfold(s, c, n);
      SplitNPrefix(s[i + 1..], c, n - 1);
      if |rest| >= n - 1 {
        TakeCons(s[..i], rest, n - 2, Join(rest[n - 2..], c));
      }
    }
  }

  lemma TakeCons<T>(first: T, rest: seq<T>, k: nat, last: T)
    requires k <= |rest|
    ensures ([first] + rest)[..k + 1] + [last] == [first] + (rest[..k] + [last])
    ensures ([first] + rest)[k + 1..] == rest[k..]
  {
  }

  lemma {:induction false} JoinSplitN(s: string, c: char, n: nat)
    requires n >= 1
    ensures Join(SplitN(s, c, n), c) == s
    decreases n
  {
    var i := IndexOf(s, c);
    if i < |s| && n > 1 {
      var tail := s[i + 1..];
      JoinSplitN(tail, c, n - 1);
      JoinCons(s[..i], SplitN(tail, c, n - 1), c);
      assert s == s[..i] + [c] + tail;
    }
  }

  /** Position of the first occurrence of `pattern` at or after `from`, if any. */
  function FindFrom(s: string, pattern: string, from: nat): (at: Option<nat>)
    requires from <= |s|
    ensures at.Some? ==> from <= at.value <= |s| && pattern <= s[at.value..]
    ensures forall j :: from <= j < (if at.Some? then at.value else |s| + 1) ==> !(pattern <= s[j..])
    decreases |s| - from
  {
    if pattern <= s[from..] then Some(from)
    else if from == |s| then None
    else FindFrom(s, pattern, from + 1)
  }

  function Find(s: string, pattern: string): (at: Option<nat>)
    ensures at.Some? ==> at.value + |pattern| <= |s| && pattern <= s[at.value..]
    ensures at.Some? ==> forall j :: 0 <= j < at.value ==> !(pattern <= s[j..])
    ensures at.None? ==> forall j :: 0 <= j <= |s| ==> !(pattern <= s[j..])
  {
    FindFrom(s, pattern, 0)
  }

  /** `s.split_once(pattern)`. */
  function SplitOnce(s: string, pattern: string): Option<(string, string)> {
    match Find(s, pattern)
    case None => None
    case Some(i) => Some((s[..i], s[i + |pattern|..]))
  }

  /** The characters that `str::trim` removes: the Unicode White_Space property. */
  predicate IsWhitespace(c: char) {
    var u := c as int;
    || 0x09 <= u <= 0x0D || u == 0x20 || u == 0x85 || u == 0xA0 || u == 0x1680
    || 0x2000 <= u <= 0x200A || u == 0x2028 || u == 0x2029 || u == 0x202F || u == 0x205F || u == 0x3000
  }

  const WHITE_SPACE: set<int> :=
    {9, 10, 11, 12, 13, 32, 133, 160, 5760, 8192, 8193, 8194, 8195, 8196, 8197, 8198, 8199, 8200, 8201, 8202,
     8232, 8233, 8239, 8287, 12288}

  lemma WhitespaceExact(c: char)
    ensures IsWhitespace(c) <==> c as int in WHITE_SPACE
  {
  }

  predicate AllWhitespace(s: string) {
    forall i :: 0 <= i < |s| ==> IsWhitespace(s[i])
  }

  predicate Trimmed(s: string) {
    s != "" ==> !IsWhitespace(s[0]) && !IsWhitespace(s[|s| - 1])
  }

  function TrimStart(s: string): string {
    if s != "" && IsWhitespace(s[0]) then TrimStart(s[1..]) else s
  }

  function TrimEnd(s: string): string {
    if s != "" && IsWhitespace(s[|s| - 1]) then TrimEnd(s[..|s| - 1]) else s
  }

  function Trim(s: string): string {
    TrimEnd(TrimStart(s))
  }

  lemma {:induction false} TrimStartPadding(pad: string, core: string)
    requires AllWhitespace(pad) && (core != "" ==> !IsWhitespace(core[0]))
    ensures TrimStart(pad + core) == core
  {
    if pad == "" {
      assert pad + core == core;
    } else {
      assert (pad + core)[1..] == pad[1..] + core;
      TrimStartPadding(pad[1..], core);
    }
  }

  lemma {:induction false} TrimEndPadding(core: string, pad: string)
    requires AllWhitespace(pad) && (core != "" ==> !IsWhitespace(core[|core| - 1]))
    ensures TrimEnd(core + pad) == core
  {
    if pad == "" {
      assert core + pad == core;
    } else {
      assert (core + pad)[..|core + pad| - 1] == core + pad[..|pad| - 1];
      TrimEndPadding(core, pad[..|pad| - 1]);
    }
  }

  /** Trimming removes exactly the padding around a trimmed core. */
  lemma TrimPadding(before: string, core: string, after: string)
    requires AllWhitespace(before) && AllWhitespace(after) && Trimmed(core)
    ensures Trim(before + core + after) == core
  {
    if core == "" {
      TrimStartPadding(before + after, "");
      assert before + core + after == before + after + "";
    } else {
      TrimStartPadding(before, core + after);
      assert before + core + after == before + (core + after);
      TrimEndPadding(core, after);
    }
  }
}
