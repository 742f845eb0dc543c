/** Comma-separated settings and the KMS encryption context. */
module EncryptionContext {
  import opened Basics
  import opened Text

  type Context = map<string, string>

  datatype ContextError = NoEquals(item: string) | EmptyPart(item: string)

  function NonEmptyTrimmed(parts: seq<string>): seq<string> {
    if parts == [] then []
    else (if Trim(parts[0]) == "" then [] else [Trim(parts[0])]) + NonEmptyTrimmed(parts[1..])
  }

  function ParseCsv(value: string): seq<string> {
    NonEmptyTrimmed(Split(value, ','))
  }

  /** One item, `key=value`, split at its first equals sign. */
  function ParseItem(item: string): Result<(string, string), ContextError> {
    match SplitOnce(item, "=")
    case None => Err(NoEquals(item))
    case Some((left, right)) =>
      var key, value := Trim(left), Trim(right);
      if key == "" || value == "" then Err(EmptyPart(item)) else Ok((key, value))
  }

  function InsertItems(items: seq<string>, context: Context): Result<Context, ContextError> {
    if items == [] then Ok(context)
    else match ParseItem(items[0])
      case Err(e) => Err(e)
      case Ok((key, value)) => InsertItems(items[1..], context[key := value])
  }

  /** The parser inserts item by item and stops at the first bad one. */
  method ParseContext(value: string) returns (r: Result<Context, ContextError>)
    ensures r == InsertItems(ParseCsv(value), map[])
  {
    var context: Context := map[];
    var items := ParseCsv(value);
    for i := 0 to |items|
      invariant InsertItems(items, map[]) == InsertItems(items[i..], context)
    {
      match ParseItem(items[i])
      case Err(e) => return Err(e);
      case Ok((key, text)) => context := context[key := text];
    }
    r := Ok(context);
  }

  function FirstBad(items: seq<string>): (bad: Option<nat>)
    ensures bad.Some? ==> bad.value < |items| && ParseItem(items[bad.value]).Err?
    ensures forall j :: 0 <= j < (if bad.Some? then bad.value else |items|) ==> ParseItem(items[j]).Ok?
  {
    hide ParseItem;
    if items == [] then None
    else if ParseItem(items[0]).Err? then Some(0)
    else
      var rest := FirstBad(items[1..]);
      assert forall j :: 1 <= j < |items| ==> items[j] == items[1..][j - 1];
      match rest
      case None => None
      case Some(k) => Some(k + 1)
  }

  /** Success is exactly "every item is good", and an error is that of the first bad item. */
  lemma {:induction false} InsertItemsOutcome(items: seq<string>, context: Context)
    ensures InsertItems(items, context).Ok? <==> FirstBad(items).None?
    ensures FirstBad(items).Some? ==>
              InsertItems(items, context) == Err(ParseItem(items[FirstBad(items).value]).error)
  {
    if items != [] && ParseItem(items[0]).Ok? {
      var pair := ParseItem(items[0]).value;
      InsertItemsOutcome(items[1..], context[pair.0 := pair.1]);
    }
  }

  // ----- the printed form -----

  /** One comma-separated item as an operator may write it: blank, or a pair with any padding. */
  datatype Item =
    | Blank(space: string)
    | Pair(before: string, key: string, afterKey: string, beforeValue: string, value: string, after: string)

  function Show(item: Item): string {
    match item
    case Blank(space) => space
    case Pair(before, key, afterKey, beforeValue, value, after) =>
      before + key + afterKey + "=" + beforeValue + value + after
  }

  function ShowAll(items: seq<Item>): string {
    Join(Shown(items), ',')
  }

  function Shown(items: seq<Item>): (shown: seq<string>)
    ensures |shown| == |items|
    ensures forall k :: 0 <= k < |items| ==> shown[k] == Show(items[k])
  {
    if items == [] then [] else [Show(items[0])] + Shown(items[1..])
  }

  ghost predicate GoodKey(key: string) {
    key != "" && Trimmed(key) && !Contains(key, ',') && !Contains(key, '=')
  }

  ghost predicate GoodValue(value: string) {
    value != "" && Trimmed(value) && !Contains(value, ',')
  }

  ghost predicate GoodItem(item: Item) {
    match item
    case Blank(space) => AllWhitespace(space)
    case Pair(before, key, afterKey, beforeValue, value, after) =>
      && AllWhitespace(before) && AllWhitespace(afterKey) && AllWhitespace(beforeValue) && AllWhitespace(after)
      && GoodKey(key) && GoodValue(value)
  }

  /** Inserting the pairs from left to right: a repeated key keeps its last value. */
  function Denote(items: seq<Item>, context: Context): Context {
    if items == [] then context
    else if items[0].Blank? then Denote(items[1..], context)
    else Denote(items[1..], context[items[0].key := items[0].value])
  }

  lemma FreeConcat(a: string, b: string, c: char)
    requires !Contains(a, c) && !Contains(b, c)
    ensures !Contains(a + b, c)
  {
    var s := a + b;
    assert forall i :: 0 <= i < |s| ==> s[i] == if i < |a| then a[i] else b[i - |a|];
  }

  lemma SpaceFree(space: string)
    requires AllWhitespace(space)
    ensures !Contains(space, ',') && !Contains(space, '=')
  {
    assert !IsWhitespace(',') && !IsWhitespace('=');
  }

  lemma ShownHasNoComma(item: Item)
    requires GoodItem(item)
    ensures !Contains(Show(item), ',')
  {
    match item
    case Blank(space) => SpaceFree(space);
    case Pair(before, key, afterKey, beforeValue, value, after) =>
      SpaceFree(before);
      SpaceFree(afterKey);
      SpaceFree(beforeValue);
      SpaceFree(after);
      FreeConcat(before, key, ',');
      FreeConcat(before + key, afterKey, ',');
      FreeConcat(before + key + afterKey, "=", ',');
      FreeConcat(before + key + afterKey + "=", beforeValue, ',');
      FreeConcat(before + key + afterKey + "=" + beforeValue, value, ',');
      FreeConcat(before + key + afterKey + "=" + beforeValue + value, after, ',');
  }

  lemma FindEquals(left: string, right: string)
    requires !Contains(left, '=')
    ensures Find(left + "=" + right, "=") == Some(|left|)
  {
    var s := left + "=" + right;
    assert "=" <= s[|left|..];
    var i := Find(s, "=").value;
    assert s[i..i + 1][0] == s[i];
    assert forall j :: 0 <= j < |left| ==> s[j] == left[j];
  }

  lemma SplitShown(left: string, right: string)
    requires !Contains(left, '=')
    ensures SplitOnce(left + "=" + right, "=") == Some((left, right))
  {
    FindEquals(left, right);
    var core := left + "=" + right;
    assert core[..|left|] == left && core[|left| + 1..] == right;
  }

  /** What an item without an equals sign gives. */
  lemma ParseItemWithout(item: string)
    requires !Contains(item, '=')
    ensures ParseItem(item) == Err(NoEquals(item))
  {
    forall j | 0 <= j < |item| ensures !("=" <= item[j..]) {
      assert item[j..][0] == item[j];
    }
  }

  /**
   * What an item with an equals sign gives, split at the first one: accepted exactly if both sides hold more than white
   * space, and then the pair is what is left of them without the white space around.
   */
  lemma ParseItemWith(left: string, right: string)
    requires !Contains(left, '=')
    ensures var item := left + "=" + right;
            if AllWhitespace(left) || AllWhitespace(right) then ParseItem(item) == Err(EmptyPart(item))
            else ParseItem(item) == Ok((Trim(left), Trim(right)))
    ensures Padded(left, Trim(left)) && Padded(right, Trim(right))
  {
    hide Trim;
    hide SplitOnce;
    SplitShown(left, right);
    var a, b := TrimExact(left);
    var c, d := TrimExact(right);
    assert Padded(left, Trim(left)) by { assert left == a + Trim(left) + b; }
    assert Padded(right, Trim(right)) by { assert right == c + Trim(right) + d; }
  }

  /** The text is the core with white space around it, and the core has none at its ends. */
  ghost predicate Padded(text: string, core: string) {
    Trimmed(core) && exists before, after :: AllWhitespace(before) && AllWhitespace(after) && text == before + core + after
  }

  lemma TrimShown(item: Item)
    requires GoodItem(item) && item.Pair?
    ensures Trim(Show(item)) == (item.key + item.afterKey) + "=" + (item.beforeValue + item.value)
  {
    var core := (item.key + item.afterKey) + "=" + (item.beforeValue + item.value);
    assert core[0] == item.key[0] && core[|core| - 1] == item.value[|item.value| - 1];
    TrimPadding(item.before, core, item.after);
    assert Show(item) == item.before + core + item.after;
  }

  lemma ParseShownPair(item: Item)
    requires GoodItem(item) && item.Pair?
    ensures Trim(Show(item)) != "" && ParseItem(Trim(Show(item))) == Ok((item.key, item.value))
  {
    hide Show;
    hide Find;
    hide SplitOnce;
    hide Contains;
    hide TrimStart;
    hide TrimEnd;
    var left, right := item.key + item.afterKey, item.beforeValue + item.value;
    TrimShown(item);
    SpaceFree(item.afterKey);
    FreeConcat(item.key, item.afterKey, '=');
    SplitShown(left, right);
    TrimPadding("", item.key, item.afterKey);
    assert "" + item.key + item.afterKey == left;
    TrimPadding(item.beforeValue, item.value, "");
    assert item.beforeValue + item.value + "" == right;
  }

  lemma {:induction false} InsertShown(items: seq<Item>, context: Context)
    requires forall k :: 0 <= k < |items| ==> GoodItem(items[k])
    ensures InsertItems(NonEmptyTrimmed(Shown(items)), context) == Ok(Denote(items, context))
  {
    if items != [] {
      var first := items[0];
      assert Shown(items)[1..] == Shown(items[1..]);
      var rest := NonEmptyTrimmed(Shown(items[1..]));
      match first
      case Blank(space) =>
        TrimPadding(space, "", "");
        assert space + "" + "" == space;
        assert NonEmptyTrimmed(Shown(items)) == rest;
        InsertShown(items[1..], context);
      case Pair(_, key, _, _, value, _) =>
        ParseShownPair(first);
        assert NonEmptyTrimmed(Shown(items)) == [Trim(Show(first))] + rest;
        InsertShown(items[1..], context[key := value]);
    }
  }

  /** Round trip: any printed list of good items parses to the context it denotes. */
  lemma ParseShowAll(items: seq<Item>)
    requires forall k :: 0 <= k < |items| ==> GoodItem(items[k])
    ensures InsertItems(ParseCsv(ShowAll(items)), map[]) == Ok(Denote(items, map[]))
  {
    if items == [] {
      assert Split("", ',') == [""];
      assert NonEmptyTrimmed([""]) == [];
    } else {
      forall k | 0 <= k < |items| ensures !Contains(Shown(items)[k], ',') {
        ShownHasNoComma(items[k]);
      }
      SplitJoin(Shown(items), ',');
      InsertShown(items, map[]);
    }
  }

  /** `k` is the last position that sets `key`. */
  ghost predicate LastSetter(items: seq<Item>, key: string, k: nat) {
    && k < |items| && items[k].Pair? && items[k].key == key
    && forall j :: k < j < |items| && items[j].Pair? ==> items[j].key != key
  }

  lemma {:induction false} DenoteKeys(items: seq<Item>, context: Context, key: string)
    ensures (forall k: nat :: !LastSetter(items, key, k)) ==>
              (key in Denote(items, context) <==> key in context) &&
              (key in context ==> Denote(items, context)[key] == context[key])
    ensures forall k: nat :: LastSetter(items, key, k) ==>
              key in Denote(items, context) && Denote(items, context)[key] == items[k].value
  {
    if items != [] {
      var next := if items[0].Blank? then context else context[items[0].key := items[0].value];
      DenoteKeys(items[1..], next, key);
      assert forall k: nat :: k >= 1 && LastSetter(items, key, k) ==> LastSetter(items[1..], key, k - 1);
      forall k: nat | LastSetter(items[1..], key, k) ensures LastSetter(items, key, k + 1) {
        forall j | k + 1 < j < |items| && items[j].Pair? ensures items[j].key != key {
          assert items[j] == items[1..][j - 1];
        }
      }
      if items[0].Pair? && items[0].key == key && forall k: nat :: !LastSetter(items[1..], key, k) {
        NoLaterSetter(items[1..], key);
        assert forall j :: 1 <= j < |items| ==> items[j] == items[1..][j - 1];
        assert LastSetter(items, key, 0);
      }
    }
  }

  lemma {:induction false} NoLaterSetter(items: seq<Item>, key: string)
    requires forall k: nat :: !LastSetter(items, key, k)
    ensures forall j :: 0 <= j < |items| && items[j].Pair? ==> items[j].key != key
    decreases |items|
  {
    if items != [] {
      var n := |items| - 1;
      var front := items[..n];
      assert !LastSetter(items, key, n);
      forall k: nat ensures !LastSetter(front, key, k) {
        if LastSetter(front, key, k) {
          forall j | k < j < |items| && items[j].Pair? ensures items[j].key != key {
            if j < n { assert front[j] == items[j]; }
          }
          assert LastSetter(items, key, k);
          assert false;
        }
      }
      NoLaterSetter(front, key);
      forall j | 0 <= j < |items| && items[j].Pair? ensures items[j].key != key {
        if j < n { assert front[j] == items[j]; }
      }
    }
  }

  /**
   * The parser inverts printing of a finite map: any list of good items that mentions exactly the entries of
   * `context`, in any order, with any repetition, padding and blank items, parses back to `context`.
   */
  lemma ParsePrintedContext(context: Context, items: seq<Item>)
    requires forall k :: 0 <= k < |items| ==> GoodItem(items[k])
    requires forall k :: 0 <= k < |items| && items[k].Pair? ==>
               items[k].key in context && context[items[k].key] == items[k].value
    requires forall key :: key in context ==> exists k :: 0 <= k < |items| && items[k].Pair? && items[k].key == key
    ensures InsertItems(ParseCsv(ShowAll(items)), map[]) == Ok(context)
  {
    hide ShowAll;
    hide ParseCsv;
    hide InsertItems;
    hide Denote;
    ParseShowAll(items);
    var result := Denote(items, map[]);
    forall key {
      DenotedEntry(context, items, key);
    }
    assert result == context;
  }

  lemma DenotedEntry(context: Context, items: seq<Item>, key: string)
    requires forall k :: 0 <= k < |items| && items[k].Pair? ==>
               items[k].key in context && context[items[k].key] == items[k].value
    requires key in context ==> exists k :: 0 <= k < |items| && items[k].Pair? && items[k].key == key
    ensures key in Denote(items, map[]) <==> key in context
    ensures key in context ==> Denote(items, map[])[key] == context[key]
  {
    DenoteKeys(items, map[], key);
    if forall k: nat :: !LastSetter(items, key, k) {
      NoLaterSetter(items, key);
    } else {
      var k: nat :| LastSetter(items, key, k);
    }
  }
}
