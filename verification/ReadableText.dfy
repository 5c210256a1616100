// src/services/webhook.service.js:62-179: the first readable text of an arbitrary JavaScript value, found by a
// depth-first search over an object graph that may share objects and contain cycles.

module ReadableText {
  import opened Collections
  import opened Options

  type Ref = nat

  datatype Value = Text(text: string) | Object(ref: Ref) | Other

  /** A record lists its own enumerable keys in their order. */
  datatype Node = Array(items: seq<Value>) | Record(entries: seq<(string, Value)>)

  // ---------------------------------------------------------------------------------------------
  // Trimming
  // ---------------------------------------------------------------------------------------------

  // WhiteSpace and LineTerminator of ECMAScript.
  predicate IsSpace(c: char) {
    || '\U{0009}' <= c <= '\U{000D}' || c == ' ' || c == '\U{00A0}' || c == '\U{1680}' || '\U{2000}' <= c <= '\U{200A}'
    || c == '\U{2028}' || c == '\U{2029}' || c == '\U{202F}' || c == '\U{205F}' || c == '\U{3000}' || c == '\U{FEFF}'
  }

  /** The white space and line terminators of section 22.1.3.32 of ECMA-262, by code point. */
  lemma SpacesAre(c: char)
    ensures IsSpace(c) <==>
              var n := c as int;
              || n in [9, 10, 11, 12, 13, 32, 160, 5760, 8232, 8233, 8239, 8287, 12288, 65279]
              || n in [8192, 8193, 8194, 8195, 8196, 8197, 8198, 8199, 8200, 8201, 8202]
  {}

  predicate Blank(s: string) {
    forall i :: 0 <= i < |s| ==> IsSpace(s[i])
  }

  function TrimStart(s: string): string {
    if s != "" && IsSpace(s[0]) then TrimStart(s[1..]) else s
  }

  function TrimEnd(s: string): string {
    if s != "" && IsSpace(s[|s| - 1]) then TrimEnd(s[..|s| - 1]) else s
  }

  function Trim(s: string): string {
    TrimEnd(TrimStart(s))
  }

  lemma {:induction false} TrimStartCuts(s: string) returns (front: string)
    ensures s == front + TrimStart(s) && Blank(front)
    ensures TrimStart(s) != "" ==> !IsSpace(TrimStart(s)[0])
  {
    front := "";
    if s != "" && IsSpace(s[0]) {
      var rest := TrimStartCuts(s[1..]);
      front := [s[0]] + rest;
    }
  }

  lemma {:induction false} TrimEndCuts(s: string) returns (back: string)
    ensures s == TrimEnd(s) + back && Blank(back)
    ensures TrimEnd(s) != "" ==> !IsSpace(TrimEnd(s)[|TrimEnd(s)| - 1])
  {
    back := "";
    if s != "" && IsSpace(s[|s| - 1]) {
      var rest := TrimEndCuts(s[..|s| - 1]);
      back := rest + [s[|s| - 1]];
    }
  }

  /** Trimming takes white space off both ends and leaves none there; nothing is left exactly of blank strings. */
  lemma TrimCuts(s: string) returns (front: string, back: string)
    ensures s == front + Trim(s) + back && Blank(front) && Blank(back)
    ensures Trim(s) != "" ==> !IsSpace(Trim(s)[0]) && !IsSpace(Trim(s)[|Trim(s)| - 1])
    ensures Trim(s) == "" <==> Blank(s)
  {
    front := TrimStartCuts(s);
    back := TrimEndCuts(TrimStart(s));
    if Trim(s) != "" {
      assert Trim(s)[0] == TrimStart(s)[0];
      assert s[|front|] == Trim(s)[0];
    }
  }

  // ---------------------------------------------------------------------------------------------
  // Keys
  // ---------------------------------------------------------------------------------------------

  const READABLE_TEXT_KEYS := [
    "body", "text", "title", "description", "payload", "caption", "filename", "name", "formatted_name", "first_name",
    "last_name", "emoji", "message", "details", "headline"]

  const NON_CONTENT_KEYS := [
    "errors", "error_data", "unsupported", "metadata", "messaging_product", "id", "from", "to", "type", "timestamp",
    "from_user_id", "wa_id", "user_id", "phone_number_id", "display_phone_number", "mime_type", "sha256"]

  // Lower case; the keys that matter are ASCII, and no other letter has one of theirs as its lower case.
  function Lower(s: string): string {
    seq(|s|, i requires 0 <= i < |s| => if 'A' <= s[i] <= 'Z' then s[i] - 'A' + 'a' else s[i])
  }

  /** `shouldSkipReadableKey` */
  predicate Skipped(key: string) {
    var normalized := Lower(key);
    normalized in NON_CONTENT_KEYS || (|normalized| >= 3 && normalized[|normalized| - 3..] == "_id")
  }

  /** Letters A to Z become a to z, everything else stays. */
  lemma LowerIs(s: string, i: nat)
    requires i < |s|
    ensures |Lower(s)| == |s|
    ensures 65 <= s[i] as int <= 90 ==> Lower(s)[i] as int == s[i] as int + 32
    ensures !(65 <= s[i] as int <= 90) ==> Lower(s)[i] == s[i]
  {}

  /** A key is skipped exactly if in lower case it is one of the listed keys or ends in "_id". */
  lemma SkippedExactly(key: string)
    ensures Skipped(key) <==> Lower(key) in NON_CONTENT_KEYS || exists front: string :: Lower(key) == front + "_id"
  {
    var k := Lower(key);
    if front: string :| k == front + "_id" {
      assert |k| >= 3 && k[|k| - 3..] == "_id";
    }
    if |k| >= 3 && k[|k| - 3..] == "_id" {
      assert k == k[..|k| - 3] + "_id";
    }
  }

  /** The value under a key is that of the first entry with it. */
  lemma {:induction false} LookupFinds(entries: seq<(string, Value)>, key: string, v: Value)
    ensures Lookup(entries, key) == Some(v) <==>
              exists i :: 0 <= i < |entries| && entries[i] == (key, v) && forall j :: 0 <= j < i ==> entries[j].0 != key
    decreases |entries|
  {
    if entries != [] && entries[0].0 != key {
      LookupFinds(entries[1..], key, v);
      if i :| 0 <= i < |entries| && entries[i] == (key, v) && forall j :: 0 <= j < i ==> entries[j].0 != key {
        assert entries[1..][i - 1] == (key, v) && forall j :: 0 <= j < i - 1 ==> entries[1..][j] == entries[j + 1];
      }
      if i :| 0 <= i < |entries[1..]| && entries[1..][i] == (key, v)
              && forall j :: 0 <= j < i ==> entries[1..][j].0 != key {
        assert entries[i + 1] == (key, v);
        assert forall j :: 0 < j < i + 1 ==> entries[j] == entries[1..][j - 1];
      }
    } else if entries != [] && entries[0].1 == v {
      assert entries[0] == (key, v);
    }
  }

  // The value of the first entry with this key, if there is one.
  function Lookup(entries: seq<(string, Value)>, key: string): Option<Value> {
    if entries == [] then None
    else if entries[0].0 == key then Some(entries[0].1)
    else Lookup(entries[1..], key)
  }

  function PreferredValues(entries: seq<(string, Value)>, keys: seq<string>): seq<Value> {
    if keys == [] then []
    else
      (if Lookup(entries, keys[0]).Some? && !Skipped(keys[0]) then [Lookup(entries, keys[0]).value] else [])
      + PreferredValues(entries, keys[1..])
  }

  function OtherValues(entries: seq<(string, Value)>): seq<Value> {
    if entries == [] then []
    else (if Skipped(entries[0].0) then [] else [entries[0].1]) + OtherValues(entries[1..])
  }

  /** The values below a node in the order of the search. */
  function Below(node: Node): seq<Value> {
    match node
    case Array(items) => items
    case Record(entries) => PreferredValues(entries, READABLE_TEXT_KEYS) + OtherValues(entries)
  }

  type Heap = map<Ref, Node>

  // ---------------------------------------------------------------------------------------------
  // The search with a shared set of visited objects
  // ---------------------------------------------------------------------------------------------

  datatype Found = Found(text: Option<string>, seen: set<Ref>)

  function DirectText(v: Value): Option<string> {
    if v.Text? && Trim(v.text) != "" then Some(Trim(v.text)) else None
  }

  function Unseen(heap: Heap, seen: set<Ref>): nat {
    |heap.Keys - seen|
  }

  lemma UnseenShrinks(heap: Heap, seen: set<Ref>, seen': set<Ref>)
    requires seen <= seen'
    ensures Unseen(heap, seen') <= Unseen(heap, seen)
    ensures forall r :: r in heap && r !in seen && r in seen' ==> Unseen(heap, seen') < Unseen(heap, seen)
  {
    SubsetSize(heap.Keys - seen', heap.Keys - seen);
    forall r | r in heap && r !in seen && r in seen' ensures Unseen(heap, seen') < Unseen(heap, seen) {
      SubsetSize(heap.Keys - seen', heap.Keys - seen - {r});
    }
  }

  /** `extractReadableText` as a function of the set it is given, with the set it leaves behind */
  function Search(heap: Heap, v: Value, seen: set<Ref>): (found: Found)
    ensures seen <= found.seen
    decreases Unseen(heap, seen), 0
  {
    if DirectText(v).Some? then Found(DirectText(v), seen)
    else if !v.Object? || v.ref in seen || v.ref !in heap then Found(None, seen)
    else
      UnseenShrinks(heap, seen, seen + {v.ref});
      SearchAll(heap, Below(heap[v.ref]), seen + {v.ref})
  }

  function SearchAll(heap: Heap, values: seq<Value>, seen: set<Ref>): (found: Found)
    ensures seen <= found.seen
    decreases Unseen(heap, seen), 1 + |values|
  {
    if values == [] then Found(None, seen)
    else
      var first := Search(heap, values[0], seen);
      UnseenShrinks(heap, seen, first.seen);
      if first.text.Some? then first else SearchAll(heap, values[1..], first.seen)
  }

  /** The search as the source runs it; `seen` is the set that the recursive calls share. */
  class Extractor {
    const heap: Heap
    var seen: set<Ref>

    constructor (heap: Heap)
      ensures this.heap == heap && seen == {}
    {
      this.heap := heap;
      seen := {};
    }

    method ExtractReadableText(value: Value) returns (text: Option<string>)
      modifies this
      ensures Found(text, seen) == Search(heap, value, old(seen))
      decreases Unseen(heap, seen), 0
    {
      var directText := DirectText(value);
      if directText.Some? {
        return directText;
      }
      if !value.Object? || value.ref !in heap {
        return None;
      }
      if value.ref in seen {
        return None;
      }
      UnseenShrinks(heap, seen, seen + {value.ref});
      seen := seen + {value.ref};
      match heap[value.ref] {
        case Array(items) => text := FromItems(items);
        case Record(entries) => text := FromRecord(entries);
      }
    }

    // The loop over the items of an array.
    method FromItems(items: seq<Value>) returns (text: Option<string>)
      modifies this
      ensures Found(text, seen) == SearchAll(heap, items, old(seen))
      decreases Unseen(heap, seen), 1
    {
      for i := 0 to |items|
        invariant old(seen) <= seen
        invariant SearchAll(heap, items, old(seen)) == SearchAll(heap, items[i..], seen)
      {
        UnseenShrinks(heap, old(seen), seen);
        text := ExtractReadableText(items[i]);
        if text.Some? {
          return;
        }
      }
      text := None;
    }

    // The loop over the readable keys of a record, and the one over its entries.
    method FromRecord(entries: seq<(string, Value)>) returns (text: Option<string>)
      modifies this
      ensures Found(text, seen) == SearchAll(heap, Below(Record(entries)), old(seen))
      decreases Unseen(heap, seen), 2
    {
      hide Skipped, Lookup, PreferredValues, OtherValues, Ahead;
      BelowIsAhead(entries);
      var i := 0;
      while i < |READABLE_TEXT_KEYS|
        invariant 0 <= i <= |READABLE_TEXT_KEYS| && old(seen) <= seen
        invariant SearchAll(heap, Below(Record(entries)), old(seen)) == SearchAll(heap, Ahead(entries, i), seen)
      {
        UnseenShrinks(heap, old(seen), seen);
        var key := READABLE_TEXT_KEYS[i];
        AheadStep(entries, i);
        if Lookup(entries, key).Some? && !Skipped(key) {
          text := ExtractReadableText(Lookup(entries, key).value);
          if text.Some? {
            return;
          }
        }
        i := i + 1;
      }
      UnseenShrinks(heap, old(seen), seen);
      text := FromEntries(entries);
    }

    method FromEntries(entries: seq<(string, Value)>) returns (text: Option<string>)
      modifies this
      ensures Found(text, seen) == SearchAll(heap, OtherValues(entries), old(seen))
      decreases Unseen(heap, seen), 1
    {
      assert entries[0..] == entries;
      for i := 0 to |entries|
        invariant old(seen) <= seen
        invariant SearchAll(heap, OtherValues(entries), old(seen)) == SearchAll(heap, OtherValues(entries[i..]), seen)
      {
        UnseenShrinks(heap, old(seen), seen);
        OtherStep(entries, i);
        if Skipped(entries[i].0) {
          continue;
        }
        text := ExtractReadableText(entries[i].1);
        if text.Some? {
          return;
        }
      }
      text := None;
    }
  }

  // What a record still has to offer from the i-th readable key on.
  ghost function Ahead(entries: seq<(string, Value)>, i: nat): seq<Value>
    requires i <= |READABLE_TEXT_KEYS|
  {
    PreferredValues(entries, READABLE_TEXT_KEYS[i..]) + OtherValues(entries)
  }

  lemma BelowIsAhead(entries: seq<(string, Value)>)
    ensures Below(Record(entries)) == Ahead(entries, 0)
    ensures Ahead(entries, |READABLE_TEXT_KEYS|) == OtherValues(entries)
  {}

  lemma AheadStep(entries: seq<(string, Value)>, i: nat)
    requires i < |READABLE_TEXT_KEYS|
    ensures var key := READABLE_TEXT_KEYS[i];
            if Lookup(entries, key).Some? && !Skipped(key)
            then Ahead(entries, i) == [Lookup(entries, key).value] + Ahead(entries, i + 1)
            else Ahead(entries, i) == Ahead(entries, i + 1)
  {
    hide Skipped, Lookup;
    assert READABLE_TEXT_KEYS[i..][0] == READABLE_TEXT_KEYS[i]
           && READABLE_TEXT_KEYS[i..][1..] == READABLE_TEXT_KEYS[i + 1..];
  }

  lemma OtherStep(entries: seq<(string, Value)>, i: nat)
    requires i < |entries|
    ensures if Skipped(entries[i].0)
            then OtherValues(entries[i..]) == OtherValues(entries[i + 1..])
            else OtherValues(entries[i..]) == [entries[i].1] + OtherValues(entries[i + 1..])
  {}

  // ---------------------------------------------------------------------------------------------
  // The simple search, which only stops at the objects above it
  // ---------------------------------------------------------------------------------------------

  /** Depth-first search without a shared set: `path` holds the objects between the start and the value, so that
      every way to an object is explored again. */
  function Simple(heap: Heap, v: Value, path: set<Ref>): Option<string>
    decreases Unseen(heap, path), 0
  {
    if DirectText(v).Some? then DirectText(v)
    else if !v.Object? || v.ref in path || v.ref !in heap then None
    else
      UnseenShrinks(heap, path, path + {v.ref});
      SimpleAll(heap, Below(heap[v.ref]), path + {v.ref})
  }

  function SimpleAll(heap: Heap, values: seq<Value>, path: set<Ref>): Option<string>
    decreases Unseen(heap, path), 1 + |values|
  {
    if values == [] then None
    else
      var first := Simple(heap, values[0], path);
      if first.Some? then first else SimpleAll(heap, values[1..], path)
  }

  // The value is no text, and no object outside the set.
  predicate Spent(v: Value, heap: Heap, seen: set<Ref>) {
    DirectText(v).None? && (v.Object? && v.ref in heap ==> v.ref in seen)
  }

  predicate AllSpent(values: seq<Value>, heap: Heap, seen: set<Ref>) {
    forall i :: 0 <= i < |values| ==> Spent(values[i], heap, seen)
  }

  /** The visited objects that are not above the value were searched in vain: all below them is spent. */
  ghost predicate Finished(heap: Heap, seen: set<Ref>, path: set<Ref>) {
    path <= seen && forall r :: r in seen && r !in path && r in heap ==> AllSpent(Below(heap[r]), heap, seen)
  }

  // Searching a finished object again, anew, finds nothing.
  lemma {:induction false} SpentIsEmpty(heap: Heap, v: Value, seen: set<Ref>, path: set<Ref>)
    requires Finished(heap, seen, path) && Spent(v, heap, seen)
    ensures Simple(heap, v, path).None?
    decreases Unseen(heap, path), 0
  {
    if v.Object? && v.ref in heap && v.ref !in path {
      UnseenShrinks(heap, path, path + {v.ref});
      AllSpentIsEmpty(heap, Below(heap[v.ref]), seen, path + {v.ref});
    }
  }

  lemma {:induction false} AllSpentIsEmpty(heap: Heap, values: seq<Value>, seen: set<Ref>, path: set<Ref>)
    requires Finished(heap, seen, path) && AllSpent(values, heap, seen)
    ensures SimpleAll(heap, values, path).None?
    decreases Unseen(heap, path), 1 + |values|
  {
    if values != [] {
      SpentIsEmpty(heap, values[0], seen, path);
      AllSpentIsEmpty(heap, values[1..], seen, path);
    }
  }

  lemma {:induction false} SearchIsSimple(heap: Heap, v: Value, seen: set<Ref>, path: set<Ref>)
    requires Finished(heap, seen, path)
    ensures var found := Search(heap, v, seen);
            && found.text == Simple(heap, v, path)
            && (found.text.None? ==> Finished(heap, found.seen, path) && Spent(v, heap, found.seen))
    decreases Unseen(heap, seen), 0
  {
    if DirectText(v).None? && v.Object? && v.ref in heap {
      if v.ref in seen {
        SpentIsEmpty(heap, v, seen, path);
      } else {
        UnseenShrinks(heap, seen, seen + {v.ref});
        SearchAllIsSimple(heap, Below(heap[v.ref]), seen + {v.ref}, path + {v.ref});
      }
    }
  }

  lemma {:induction false} SearchAllIsSimple(heap: Heap, values: seq<Value>, seen: set<Ref>, path: set<Ref>)
    requires Finished(heap, seen, path)
    ensures var found := SearchAll(heap, values, seen);
            && found.text == SimpleAll(heap, values, path)
            && (found.text.None? ==> Finished(heap, found.seen, path) && AllSpent(values, heap, found.seen))
    decreases Unseen(heap, seen), 1 + |values|
  {
    if values != [] {
      SearchIsSimple(heap, values[0], seen, path);
      var first := Search(heap, values[0], seen);
      UnseenShrinks(heap, seen, first.seen);
      if first.text.None? {
        SearchAllIsSimple(heap, values[1..], first.seen, path);
      }
    }
  }

  /** On every object graph, cycles included, sharing the set of visited objects does not change the answer. */
  lemma SharingIsSafe(heap: Heap, v: Value)
    ensures Search(heap, v, {}).text == Simple(heap, v, {})
  {
    SearchIsSimple(heap, v, {}, {});
  }

  // ---------------------------------------------------------------------------------------------
  // What the search finds
  // ---------------------------------------------------------------------------------------------

  predicate Leads(heap: Heap, v: Value, w: Value) {
    v.Object? && v.ref in heap && w in Below(heap[v.ref])
  }

  /** A walk through the graph along keys that are not skipped. */
  ghost predicate Walk(heap: Heap, walk: seq<Value>) {
    forall i, j :: 0 <= i && j == i + 1 && j < |walk| ==> Leads(heap, walk[i], walk[j])
  }

  ghost predicate Reaches(heap: Heap, v: Value, w: Value) {
    exists walk: seq<Value> :: |walk| > 0 && walk[0] == v && walk[|walk| - 1] == w && Walk(heap, walk)
  }

  lemma ReachesSelf(heap: Heap, v: Value)
    ensures Reaches(heap, v, v)
  {
    assert [v][0] == v && Walk(heap, [v]);
  }

  lemma ReachesStep(heap: Heap, r: Ref, v: Value, w: Value)
    requires Leads(heap, Object(r), v) && Reaches(heap, v, w)
    ensures Reaches(heap, Object(r), w)
  {
    hide Leads, Walk;
    var walk: seq<Value> :| |walk| > 0 && walk[0] == v && walk[|walk| - 1] == w && Walk(heap, walk);
    LongerWalk(heap, Object(r), walk);
    var longer := [Object(r)] + walk;
    assert longer[0] == Object(r) && longer[|longer| - 1] == w;
  }

  lemma LongerWalk(heap: Heap, first: Value, walk: seq<Value>)
    requires |walk| > 0 && Leads(heap, first, walk[0]) && Walk(heap, walk)
    ensures Walk(heap, [first] + walk)
  {
    hide Leads;
    var longer := [first] + walk;
    forall i, j | 0 <= i && j == i + 1 && j < |longer| ensures Leads(heap, longer[i], longer[j]) {
      if i > 0 {
        assert Leads(heap, walk[i - 1], walk[j - 1]);
      }
    }
  }

  // A text that the search returns is the trimmed form of a reachable string.
  lemma {:induction false} FoundIsReached(heap: Heap, v: Value, seen: set<Ref>)
    requires Search(heap, v, seen).text.Some?
    ensures exists s :: Reaches(heap, v, Text(s)) && Search(heap, v, seen).text == DirectText(Text(s))
    decreases Unseen(heap, seen), 0
  {
    if DirectText(v).Some? {
      ReachesSelf(heap, v);
    } else {
      UnseenShrinks(heap, seen, seen + {v.ref});
      var values := Below(heap[v.ref]);
      var i, s := FoundAmong(heap, values, seen + {v.ref});
      ReachesStep(heap, v.ref, values[i], Text(s));
    }
  }

  lemma {:induction false} FoundAmong(heap: Heap, values: seq<Value>, seen: set<Ref>) returns (i: nat, s: string)
    requires SearchAll(heap, values, seen).text.Some?
    ensures i < |values| && Reaches(heap, values[i], Text(s))
    ensures SearchAll(heap, values, seen).text == DirectText(Text(s))
    decreases Unseen(heap, seen), 1 + |values|
  {
    hide Reaches, Search, DirectText, Unseen, Below;
    var first := Search(heap, values[0], seen);
    UnseenShrinks(heap, seen, first.seen);
    if first.text.Some? {
      FoundIsReached(heap, values[0], seen);
      i := 0;
      s :| Reaches(heap, values[0], Text(s)) && first.text == DirectText(Text(s));
    } else {
      i, s := FoundAmong(heap, values[1..], first.seen);
      i := i + 1;
    }
  }

  // Nothing leads out of a set of finished objects.
  lemma {:induction false} SpentReaches(heap: Heap, seen: set<Ref>, walk: seq<Value>)
    requires Finished(heap, seen, {}) && walk != [] && Spent(walk[0], heap, seen) && Walk(heap, walk)
    ensures Spent(walk[|walk| - 1], heap, seen)
    decreases |walk|
  {
    if |walk| > 1 {
      assert Leads(heap, walk[0], walk[1]);
      var rest := walk[1..];
      forall i, j | 0 <= i && j == i + 1 && j < |rest| ensures Leads(heap, rest[i], rest[j]) {
        assert Leads(heap, walk[i + 1], walk[j + 1]);
      }
      SpentReaches(heap, seen, rest);
    }
  }

  /** The result is null exactly when no string but blank ones can be reached, and is otherwise the trimmed form of
      a reachable string. */
  lemma ReadableTextIsReachable(heap: Heap, v: Value)
    ensures var text := Search(heap, v, {}).text;
            && (text.None? <==> forall s :: Reaches(heap, v, Text(s)) ==> Blank(s))
            && (text.Some? ==> exists s :: Reaches(heap, v, Text(s)) && !Blank(s) && text.value == Trim(s))
  {
    SearchIsSimple(heap, v, {}, {});
    var found := Search(heap, v, {});
    if found.text.None? {
      forall s | Reaches(heap, v, Text(s)) ensures Blank(s) {
        var walk: seq<Value> :| |walk| > 0 && walk[0] == v && walk[|walk| - 1] == Text(s) && Walk(heap, walk);
        SpentReaches(heap, found.seen, walk);
        var front, back := TrimCuts(s);
      }
    } else {
      FoundIsReached(heap, v, {});
      var s :| Reaches(heap, v, Text(s)) && found.text == DirectText(Text(s));
      var front, back := TrimCuts(s);
    }
  }

  // ---------------------------------------------------------------------------------------------
  // Which of several texts
  // ---------------------------------------------------------------------------------------------

  // The check for skipped keys never strikes in the loop over the readable keys.
  lemma ReadableKeysAreContent(i: nat)
    requires i < |READABLE_TEXT_KEYS|
    ensures !Skipped(READABLE_TEXT_KEYS[i])
  {
    if i < 5 {
      FirstKeysAreContent(i);
    } else if i < 10 {
      MiddleKeysAreContent(i);
    } else {
      LaterKeysAreContent(i);
    }
  }

  lemma FirstKeysAreContent(i: nat)
    requires i < 5
    ensures !Skipped(READABLE_TEXT_KEYS[i])
  {
    assert Lower(READABLE_TEXT_KEYS[i]) == READABLE_TEXT_KEYS[i];
  }

  lemma MiddleKeysAreContent(i: nat)
    requires 5 <= i < 10
    ensures !Skipped(READABLE_TEXT_KEYS[i])
  {
    assert Lower(READABLE_TEXT_KEYS[i]) == READABLE_TEXT_KEYS[i];
  }

  lemma LaterKeysAreContent(i: nat)
    requires 10 <= i < |READABLE_TEXT_KEYS|
    ensures !Skipped(READABLE_TEXT_KEYS[i])
  {
    assert Lower(READABLE_TEXT_KEYS[i]) == READABLE_TEXT_KEYS[i];
  }

  lemma {:induction false} SearchSkips(heap: Heap, values: seq<Value>, seen: set<Ref>, n: nat)
    requires n < |values| && DirectText(values[n]).Some?
    requires forall i :: 0 <= i < n ==> DirectText(values[i]).None? && !values[i].Object?
    ensures SearchAll(heap, values, seen).text == DirectText(values[n])
    decreases n
  {
    if n > 0 {
      SearchSkips(heap, values[1..], seen, n - 1);
    }
  }

  // The value stands under one of the first i keys.
  ghost predicate StandsEarlier(entries: seq<(string, Value)>, keys: seq<string>, i: nat, v: Value)
    requires i <= |keys|
  {
    exists j :: 0 <= j < i && Lookup(entries, keys[j]) == Some(v)
  }

  /** The position in the order of the search at which the value of a key stands. */
  lemma {:induction false} PreferredAt(entries: seq<(string, Value)>, keys: seq<string>, i: nat) returns (n: nat)
    requires i < |keys| && Lookup(entries, keys[i]).Some? && forall k :: 0 <= k < |keys| ==> !Skipped(keys[k])
    ensures n < |PreferredValues(entries, keys)| && PreferredValues(entries, keys)[n] == Lookup(entries, keys[i]).value
    ensures forall k :: 0 <= k < n ==> StandsEarlier(entries, keys, i, PreferredValues(entries, keys)[k])
    decreases |keys|
  {
    hide Lookup, Skipped;
    n := 0;
    if i > 0 {
      var rest := PreferredAt(entries, keys[1..], i - 1);
      var present := Lookup(entries, keys[0]).Some?;
      n := if present then rest + 1 else rest;
      var values := PreferredValues(entries, keys);
      forall k | 0 <= k < n ensures StandsEarlier(entries, keys, i, values[k]) {
        if present && k == 0 {
          assert Lookup(entries, keys[0]) == Some(values[k]);
        } else {
          assert StandsEarlier(entries, keys[1..], i - 1, values[k]);
          var j :| 0 <= j < i - 1 && Lookup(entries, keys[1..][j]) == Some(values[k]);
          assert Lookup(entries, keys[j + 1]) == Some(values[k]);
        }
      }
    }
  }

  /** In a record, the text under a readable key wins over everything but the keys before it in the list, wherever
      the entry stands. */
  lemma FirstReadableKeyWins(heap: Heap, r: Ref, i: nat)
    requires r in heap && heap[r].Record? && i < |READABLE_TEXT_KEYS|
    requires var text := Lookup(heap[r].entries, READABLE_TEXT_KEYS[i]); text.Some? && DirectText(text.value).Some?
    requires forall j :: 0 <= j < i ==> var v := Lookup(heap[r].entries, READABLE_TEXT_KEYS[j]);
                                        v.Some? ==> DirectText(v.value).None? && !v.value.Object?
    ensures Search(heap, Object(r), {}).text == DirectText(Lookup(heap[r].entries, READABLE_TEXT_KEYS[i]).value)
  {
    hide Lookup, Skipped;
    var entries, values := heap[r].entries, Below(heap[r]);
    forall k | 0 <= k < |READABLE_TEXT_KEYS| ensures !Skipped(READABLE_TEXT_KEYS[k]) {
      ReadableKeysAreContent(k);
    }
    var n := PreferredAt(entries, READABLE_TEXT_KEYS, i);
    hide PreferredValues, OtherValues;
    forall k | 0 <= k < n ensures DirectText(values[k]).None? && !values[k].Object? {
      assert values[k] == PreferredValues(entries, READABLE_TEXT_KEYS)[k];
      assert StandsEarlier(entries, READABLE_TEXT_KEYS, i, values[k]);
      var j :| 0 <= j < i && Lookup(entries, READABLE_TEXT_KEYS[j]) == Some(values[k]);
    }
    assert values[n] == PreferredValues(entries, READABLE_TEXT_KEYS)[n];
    SearchSkips(heap, values, {} + {r}, n);
  }

  // ---------------------------------------------------------------------------------------------
  // Graphs without cycles
  // ---------------------------------------------------------------------------------------------

  /** Every object lies higher than those below it. */
  ghost predicate Acyclic(heap: Heap, height: Ref -> nat) {
    forall r, v :: r in heap && v in Below(heap[r]) && v.Object? && v.ref in heap ==> height(v.ref) < height(r)
  }

  function HeightOf(heap: Heap, v: Value, height: Ref -> nat): nat {
    if v.Object? && v.ref in heap then 1 + height(v.ref) else 0
  }

  /** The plain recursion over a graph without cycles, with no set at all. */
  ghost function Plain(heap: Heap, v: Value, height: Ref -> nat): Option<string>
    requires Acyclic(heap, height)
    decreases HeightOf(heap, v, height), 0
  {
    if DirectText(v).Some? then DirectText(v)
    else if !v.Object? || v.ref !in heap then None
    else PlainAll(heap, Below(heap[v.ref]), height, height(v.ref))
  }

  ghost function PlainAll(heap: Heap, values: seq<Value>, height: Ref -> nat, bound: nat): Option<string>
    requires Acyclic(heap, height)
    requires forall v :: v in values ==> HeightOf(heap, v, height) <= bound
    decreases bound, 1 + |values|
  {
    if values == [] then None
    else
      var first := Plain(heap, values[0], height);
      if first.Some? then first else PlainAll(heap, values[1..], height, bound)
  }

  lemma {:induction false} SimpleIsPlain(heap: Heap, v: Value, height: Ref -> nat, path: set<Ref>)
    requires Acyclic(heap, height) && forall r :: r in path ==> HeightOf(heap, v, height) <= height(r)
    ensures Simple(heap, v, path) == Plain(heap, v, height)
    decreases HeightOf(heap, v, height), 0
  {
    if DirectText(v).None? && v.Object? && v.ref in heap {
      SimpleAllIsPlain(heap, Below(heap[v.ref]), height, path + {v.ref}, height(v.ref));
    }
  }

  lemma {:induction false} SimpleAllIsPlain(heap: Heap, values: seq<Value>, height: Ref -> nat, path: set<Ref>,
                                            bound: nat)
    requires Acyclic(heap, height)
    requires forall v :: v in values ==> HeightOf(heap, v, height) <= bound
    requires forall r :: r in path ==> bound <= height(r)
    ensures SimpleAll(heap, values, path) == PlainAll(heap, values, height, bound)
    decreases bound, 1 + |values|
  {
    if values != [] {
      SimpleIsPlain(heap, values[0], height, path);
      SimpleAllIsPlain(heap, values[1..], height, path, bound);
    }
  }

  /** On a graph without cycles, shared objects or not, the search is the plain recursion. */
  lemma AcyclicSearchIsPlain(heap: Heap, v: Value, height: Ref -> nat)
    requires Acyclic(heap, height)
    ensures Search(heap, v, {}).text == Plain(heap, v, height)
  {
    SharingIsSafe(heap, v);
    SimpleIsPlain(heap, v, height, {});
  }
}
