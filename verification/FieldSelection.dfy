/** Collecting the text of selected fields from a JSON value: collectSelectedTextValues and
    collectTextValues of internal/demo/sentiment.go. */
module FieldSelection {
  import opened Wrappers

  /** A decoded JSON value; the entries of an object are listed in the order of iteration. */
  datatype Json =
    | Null
    | Boolean(value: bool)
    | Number(number: real)
    | Text(text: string)
    | Array(items: seq<Json>)
    | Object(entries: seq<Entry>)

  datatype Entry = Entry(key: string, value: Json)

  /** The library functions strings.ToLower, strings.TrimSpace and strconv.FormatFloat. */
  datatype Library = Library(lower: string -> string, trim: string -> string, format: real -> string)

  function FormatBool(b: bool): string {
    if b then "true" else "false"
  }

  // ----- What is to be collected

  /** A text that can be collected, and the lower-case keys on its path. */
  datatype Leaf = Leaf(keys: seq<string>, text: string)

  function Scalar(lib: Library, v: Json): Option<string> {
    match v
    case Text(text) => if lib.trim(text) == "" then None else Some(lib.trim(text))
    case Number(number) => Some(lib.format(number))
    case Boolean(value) => Some(FormatBool(value))
    case _ => None
  }

  /** All non-empty leaves of a value that is reached by the given keys. */
  function Leaves(lib: Library, v: Json, keys: seq<string>): seq<Leaf>
    decreases v
  {
    match v
    case Array(items) => ItemLeaves(lib, items, keys)
    case Object(entries) => EntryLeaves(lib, entries, keys)
    case _ => if Scalar(lib, v).Some? then [Leaf(keys, Scalar(lib, v).value)] else []
  }

  function ItemLeaves(lib: Library, items: seq<Json>, keys: seq<string>): seq<Leaf>
    decreases items
  {
    if items == [] then []
    else ItemLeaves(lib, items[..|items| - 1], keys) + Leaves(lib, items[|items| - 1], keys)
  }

  function EntryLeaves(lib: Library, entries: seq<Entry>, keys: seq<string>): seq<Leaf>
    decreases entries
  {
    if entries == [] then []
    else EntryLeaves(lib, entries[..|entries| - 1], keys) + LeavesOfEntry(lib, entries[|entries| - 1], keys)
  }

  function LeavesOfEntry(lib: Library, entry: Entry, keys: seq<string>): seq<Leaf>
    decreases entry
  {
    Leaves(lib, entry.value, keys + [lib.lower(entry.key)])
  }

  /** The dotted path after one more key. */
  function Extend(path: string, key: string): string {
    if path == "" then key else path + "." + key
  }

  function DottedPath(keys: seq<string>): string {
    if keys == [] then "" else Extend(DottedPath(keys[..|keys| - 1]), keys[|keys| - 1])
  }

  /** The i-th key is selected, by its name or by the dotted path that leads to it. */
  predicate ChosenAt(keys: seq<string>, selected: set<string>, i: nat)
    requires i < |keys|
  {
    keys[i] in selected || DottedPath(keys[..i + 1]) in selected
  }

  ghost predicate Chosen(keys: seq<string>, selected: set<string>) {
    exists i :: 0 <= i < |keys| && ChosenAt(keys, selected, i)
  }

  /** The texts of the leaves whose path is chosen, each once, in order. */
  ghost function ChosenTexts(leaves: seq<Leaf>, selected: set<string>): seq<string> {
    if leaves == [] then []
    else
      var last := leaves[|leaves| - 1];
      ChosenTexts(leaves[..|leaves| - 1], selected) + if Chosen(last.keys, selected) then [last.text] else []
  }

  function Texts(leaves: seq<Leaf>): seq<string> {
    seq(|leaves|, i requires 0 <= i < |leaves| => leaves[i].text)
  }

  // ----- Facts about paths

  lemma ChosenExtends(keys: seq<string>, key: string, selected: set<string>)
    ensures Chosen(keys + [key], selected) <==>
      Chosen(keys, selected) || key in selected || Extend(DottedPath(keys), key) in selected
  {
    var all := keys + [key];
    assert all[..|keys|] == keys && all[..|all|] == all;
    forall i | 0 <= i < |keys|
      ensures ChosenAt(all, selected, i) <==> ChosenAt(keys, selected, i)
    {
      assert all[..i + 1] == keys[..i + 1];
    }
    assert ChosenAt(all, selected, |keys|) <==> key in selected || Extend(DottedPath(keys), key) in selected;
  }

  lemma NextPath(keys: seq<string>, key: string, selected: set<string>)
    requires !Chosen(keys, selected)
    ensures DottedPath(keys + [key]) == Extend(DottedPath(keys), key)
    ensures Chosen(keys + [key], selected) <==> key in selected || Extend(DottedPath(keys), key) in selected
  {
    assert (keys + [key])[..|keys|] == keys;
    ChosenExtends(keys, key, selected);
  }

  ghost predicate AllChosen(leaves: seq<Leaf>, selected: set<string>) {
    forall i :: 0 <= i < |leaves| ==> Chosen(leaves[i].keys, selected)
  }

  /** Below a chosen key, everything is chosen. */
  lemma {:induction false} BelowChosen(lib: Library, v: Json, keys: seq<string>, selected: set<string>)
    requires Chosen(keys, selected)
    ensures AllChosen(Leaves(lib, v, keys), selected)
    decreases v
  {
    match v
    case Array(items) => ItemsBelowChosen(lib, items, keys, selected);
    case Object(entries) => EntriesBelowChosen(lib, entries, keys, selected);
    case _ =>
  }

  lemma {:induction false} ItemsBelowChosen(lib: Library, items: seq<Json>, keys: seq<string>, selected: set<string>)
    requires Chosen(keys, selected)
    ensures AllChosen(ItemLeaves(lib, items, keys), selected)
    decreases items
  {
    if items != [] {
      ItemsBelowChosen(lib, items[..|items| - 1], keys, selected);
      BelowChosen(lib, items[|items| - 1], keys, selected);
    }
  }

  lemma {:induction false} EntriesBelowChosen(
    lib: Library, entries: seq<Entry>, keys: seq<string>, selected: set<string>)
    requires Chosen(keys, selected)
    ensures AllChosen(EntryLeaves(lib, entries, keys), selected)
    decreases entries
  {
    if entries != [] {
      var last := entries[|entries| - 1];
      EntriesBelowChosen(lib, entries[..|entries| - 1], keys, selected);
      ChosenExtends(keys, lib.lower(last.key), selected);
      BelowChosen(lib, last.value, keys + [lib.lower(last.key)], selected);
    }
  }

  // ----- Facts about lists of leaves

  lemma {:induction false} ChosenTextsJoin(a: seq<Leaf>, b: seq<Leaf>, selected: set<string>)
    ensures ChosenTexts(a + b, selected) == ChosenTexts(a, selected) + ChosenTexts(b, selected)
  {
    if b == [] {
      assert a + b == a;
    } else {
      ChosenTextsJoin(a, b[..|b| - 1], selected);
      assert (a + b)[..|a + b| - 1] == a + b[..|b| - 1];
    }
  }

  lemma {:induction false} ChosenTextsOfAll(leaves: seq<Leaf>, selected: set<string>)
    requires AllChosen(leaves, selected)
    ensures ChosenTexts(leaves, selected) == Texts(leaves)
  {
    if leaves != [] {
      var init, last := leaves[..|leaves| - 1], leaves[|leaves| - 1];
      ChosenTextsOfAll(init, selected);
      assert Chosen(last.keys, selected);
      assert Texts(leaves) == Texts(init) + [last.text];
    }
  }

  lemma EntryLeavesNext(lib: Library, entries: seq<Entry>, i: nat, keys: seq<string>)
    requires i < |entries|
    ensures EntryLeaves(lib, entries[..i + 1], keys)
         == EntryLeaves(lib, entries[..i], keys) + LeavesOfEntry(lib, entries[i], keys)
  {
    assert entries[..i + 1][..i] == entries[..i];
  }

  lemma ItemLeavesNext(lib: Library, items: seq<Json>, i: nat, keys: seq<string>)
    requires i < |items|
    ensures ItemLeaves(lib, items[..i + 1], keys) == ItemLeaves(lib, items[..i], keys) + Leaves(lib, items[i], keys)
  {
    assert items[..i + 1][..i] == items[..i];
  }

  lemma ChosenBelow(lib: Library, v: Json, keys: seq<string>, selected: set<string>)
    requires Chosen(keys, selected)
    ensures ChosenTexts(Leaves(lib, v, keys), selected) == Texts(Leaves(lib, v, keys))
  {
    BelowChosen(lib, v, keys, selected);
    ChosenTextsOfAll(Leaves(lib, v, keys), selected);
  }

  lemma Associate(a: seq<string>, b: seq<string>, c: seq<string>)
    ensures a + b + c == a + (b + c)
  {
  }

  lemma TextsJoin(a: seq<Leaf>, b: seq<Leaf>)
    ensures Texts(a + b) == Texts(a) + Texts(b)
  {
  }

  // ----- The collectors

  class Collector {
    var parts: seq<string>

    constructor ()
      ensures parts == []
    {
      parts := [];
    }
  }

  /** Appends the texts of all leaves; `keys` only names the path to the value. */
  method CollectTextValues(lib: Library, v: Json, out: Collector, ghost keys: seq<string>)
    modifies out
    ensures out.parts == old(out.parts) + Texts(Leaves(lib, v, keys))
    decreases v
  {
    match v
    case Object(entries) => CollectEntries(lib, entries, out, keys);
    case Array(items) => CollectItems(lib, items, out, keys);
    case Text(text) =>
      var s := lib.trim(text);
      if s != "" {
        out.parts := out.parts + [s];
      }
    case Number(number) =>
      out.parts := out.parts + [lib.format(number)];
    case Boolean(value) =>
      out.parts := out.parts + [FormatBool(value)];
    case Null =>
  }

  method CollectEntries(lib: Library, entries: seq<Entry>, out: Collector, ghost keys: seq<string>)
    modifies out
    ensures out.parts == old(out.parts) + Texts(EntryLeaves(lib, entries, keys))
    decreases entries
  {
    for i := 0 to |entries|
      invariant out.parts == old(out.parts) + Texts(EntryLeaves(lib, entries[..i], keys))
    {
      ghost var seen, below := EntryLeaves(lib, entries[..i], keys), LeavesOfEntry(lib, entries[i], keys);
      EntryLeavesNext(lib, entries, i, keys);
      CollectTextValues(lib, entries[i].value, out, keys + [lib.lower(entries[i].key)]);
      TextsJoin(seen, below);
      Associate(old(out.parts), Texts(seen), Texts(below));
    }
    assert entries[..|entries|] == entries;
  }

  method CollectItems(lib: Library, items: seq<Json>, out: Collector, ghost keys: seq<string>)
    modifies out
    ensures out.parts == old(out.parts) + Texts(ItemLeaves(lib, items, keys))
    decreases items
  {
    for i := 0 to |items|
      invariant out.parts == old(out.parts) + Texts(ItemLeaves(lib, items[..i], keys))
    {
      ghost var seen, below := ItemLeaves(lib, items[..i], keys), Leaves(lib, items[i], keys);
      ItemLeavesNext(lib, items, i, keys);
      CollectTextValues(lib, items[i], out, keys);
      TextsJoin(seen, below);
      Associate(old(out.parts), Texts(seen), Texts(below));
    }
    assert items[..|items|] == items;
  }

  /** Appends the texts of exactly the leaves with a selected key on their path, each once, however
      many keys on its path are selected. */
  method CollectSelectedTextValues(
    lib: Library, v: Json, path: string, selected: set<string>, out: Collector, ghost keys: seq<string>)
    requires path == DottedPath(keys) && !Chosen(keys, selected)
    modifies out
    ensures out.parts == old(out.parts) + ChosenTexts(Leaves(lib, v, keys), selected)
    decreases v
  {
    match v
    case Object(entries) => CollectSelectedEntries(lib, entries, path, selected, out, keys);
    case Array(items) => CollectSelectedItems(lib, items, path, selected, out, keys);
    case _ =>
  }

  method CollectSelectedEntries(
    lib: Library, entries: seq<Entry>, path: string, selected: set<string>, out: Collector, ghost keys: seq<string>)
    requires path == DottedPath(keys) && !Chosen(keys, selected)
    modifies out
    ensures out.parts == old(out.parts) + ChosenTexts(EntryLeaves(lib, entries, keys), selected)
    decreases entries
  {
    for i := 0 to |entries|
      invariant out.parts == old(out.parts) + ChosenTexts(EntryLeaves(lib, entries[..i], keys), selected)
    {
      var lk := lib.lower(entries[i].key);
      var nextPath := lk;
      if path != "" {
        nextPath := path + "." + lk;
      }
      ghost var seen, below := EntryLeaves(lib, entries[..i], keys), LeavesOfEntry(lib, entries[i], keys);
      EntryLeavesNext(lib, entries, i, keys);
      ChosenTextsJoin(seen, below, selected);
      Associate(old(out.parts), ChosenTexts(seen, selected), ChosenTexts(below, selected));
      NextPath(keys, lk, selected);
      if lk in selected || nextPath in selected {
        ChosenBelow(lib, entries[i].value, keys + [lk], selected);
        CollectTextValues(lib, entries[i].value, out, keys + [lk]);
        continue;
      }
      CollectSelectedTextValues(lib, entries[i].value, nextPath, selected, out, keys + [lk]);
    }
    assert entries[..|entries|] == entries;
  }

  method CollectSelectedItems(
    lib: Library, items: seq<Json>, path: string, selected: set<string>, out: Collector, ghost keys: seq<string>)
    requires path == DottedPath(keys) && !Chosen(keys, selected)
    modifies out
    ensures out.parts == old(out.parts) + ChosenTexts(ItemLeaves(lib, items, keys), selected)
    decreases items
  {
    for i := 0 to |items|
      invariant out.parts == old(out.parts) + ChosenTexts(ItemLeaves(lib, items[..i], keys), selected)
    {
      ghost var seen, below := ItemLeaves(lib, items[..i], keys), Leaves(lib, items[i], keys);
      ItemLeavesNext(lib, items, i, keys);
      ChosenTextsJoin(seen, below, selected);
      Associate(old(out.parts), ChosenTexts(seen, selected), ChosenTexts(below, selected));
      CollectSelectedTextValues(lib, items[i], path, selected, out, keys);
    }
    assert items[..|items|] == items;
  }

  /** The texts that a decoded record gives: the selected ones, or all if nothing is selected or found. */
  method TextParts(lib: Library, payload: Json, selected: set<string>) returns (parts: seq<string>)
    ensures parts ==
      if ChosenTexts(Leaves(lib, payload, []), selected) != [] then ChosenTexts(Leaves(lib, payload, []), selected)
      else Texts(Leaves(lib, payload, []))
  {
    var out := new Collector();
    if |selected| > 0 {
      CollectSelectedTextValues(lib, payload, "", selected, out, []);
    } else {
      NothingChosen(Leaves(lib, payload, []));
    }
    if |out.parts| == 0 {
      CollectTextValues(lib, payload, out, []);
    }
    parts := out.parts;
  }

  /** strings.Join(parts, " ") */
  function JoinWithSpaces(parts: seq<string>): string {
    if parts == [] then ""
    else if |parts| == 1 then parts[0]
    else JoinWithSpaces(parts[..|parts| - 1]) + " " + parts[|parts| - 1]
  }

  /** The text of a record: its texts, separated by spaces, if it decodes and has any; otherwise the
      trimmed record itself. */
  method TextForSentiment(lib: Library, decode: string -> Option<Json>, input: string, selected: set<string>)
    returns (text: string)
    ensures var trimmed := lib.trim(input);
      && (trimmed == "" ==> text == "")
      && (trimmed != "" && decode(trimmed).Some? && Leaves(lib, decode(trimmed).value, []) != [] ==>
            var leaves := Leaves(lib, decode(trimmed).value, []);
            var chosen := ChosenTexts(leaves, selected);
            text == JoinWithSpaces(if chosen != [] then chosen else Texts(leaves)))
      && (trimmed != "" && (decode(trimmed).None? || Leaves(lib, decode(trimmed).value, []) == []) ==> text == trimmed)
  {
    var trimmed := lib.trim(input);
    if trimmed == "" {
      return "";
    }
    var payload := decode(trimmed);
    if payload.Some? {
      var parts := TextParts(lib, payload.value, selected);
      if |parts| > 0 {
        return JoinWithSpaces(parts);
      }
    }
    return trimmed;
  }

  lemma {:induction false} NothingChosen(leaves: seq<Leaf>)
    ensures ChosenTexts(leaves, {}) == []
  {
    if leaves != [] {
      NothingChosen(leaves[..|leaves| - 1]);
    }
  }

  /** The texts are separated by one space each, and by nothing else. */
  lemma {:induction false} JoiningSeparatesBySpaces(a: seq<string>, b: seq<string>)
    requires a != [] && b != []
    ensures JoinWithSpaces([]) == "" && JoinWithSpaces([a[0]]) == a[0]
    ensures JoinWithSpaces(a + b) == JoinWithSpaces(a) + " " + JoinWithSpaces(b)
  {
    assert (a + b)[..|a + b| - 1] == a + b[..|b| - 1];
    if |b| == 1 {
      assert a + b[..0] == a;
    } else {
      JoiningSeparatesBySpaces(a, b[..|b| - 1]);
    }
  }

  // ----- Leaves by position

  /** The values directly in an array or an object. */
  function Children(v: Json): seq<Json> {
    match v
    case Array(items) => items
    case Object(entries) => seq(|entries|, i requires 0 <= i < |entries| => entries[i].value)
    case _ => []
  }

  /** The lower-case key under which an object has its i-th value; an array has no keys. */
  function KeyOf(lib: Library, v: Json, i: nat): seq<string>
    requires i < |Children(v)|
  {
    if v.Object? then [lib.lower(v.entries[i].key)] else []
  }

  /** The value at the end of a path of positions. */
  function At(v: Json, path: seq<nat>): Option<Json>
    decreases path
  {
    if path == [] then Some(v)
    else if path[0] < |Children(v)| then At(Children(v)[path[0]], path[1..])
    else None
  }

  /** The lower-case keys on the path. */
  function KeysOn(lib: Library, v: Json, path: seq<nat>): seq<string>
    requires At(v, path).Some?
    decreases path
  {
    if path == [] then [] else KeyOf(lib, v, path[0]) + KeysOn(lib, Children(v)[path[0]], path[1..])
  }

  /** The path leads to a text that is not blank, a number or a truth value, and `text` shows it. */
  predicate Shows(lib: Library, v: Json, path: seq<nat>, text: string) {
    At(v, path).Some? &&
    match At(v, path).value
    case Text(s) => lib.trim(s) != "" && text == lib.trim(s)
    case Number(x) => text == lib.format(x)
    case Boolean(b) => text == if b then "true" else "false"
    case _ => false
  }

  /** In document order. */
  predicate Earlier(a: seq<nat>, b: seq<nat>) {
    b != [] && (a == [] || a[0] < b[0] || (a[0] == b[0] && Earlier(a[1..], b[1..])))
  }

  lemma {:induction false} EarlierIsStrict(a: seq<nat>, b: seq<nat>)
    ensures !Earlier(a, a) && !(Earlier(a, b) && Earlier(b, a))
    ensures a != b ==> Earlier(a, b) || Earlier(b, a)
    decreases |a|
  {
    if a != [] && b != [] {
      EarlierIsStrict(a[1..], b[1..]);
      assert a == [a[0]] + a[1..] && b == [b[0]] + b[1..];
    } else if a != [] {
      EarlierIsStrict(a[1..], []);
    }
  }

  predicate InOrder(paths: seq<seq<nat>>) {
    forall i, j :: 0 <= i < j < |paths| ==> Earlier(paths[i], paths[j])
  }

  ghost predicate LeafAt(lib: Library, v: Json, keys: seq<string>, path: seq<nat>, leaf: Leaf) {
    Shows(lib, v, path, leaf.text) && leaf.keys == keys + KeysOn(lib, v, path)
  }

  /** The paths lead, in document order, to the places that show the leaves, and to no others. */
  ghost predicate PathsOf(lib: Library, v: Json, keys: seq<string>, leaves: seq<Leaf>, paths: seq<seq<nat>>) {
    && |paths| == |leaves| && InOrder(paths)
    && (forall i :: 0 <= i < |paths| ==> LeafAt(lib, v, keys, paths[i], leaves[i]))
    && (forall path, text :: Shows(lib, v, path, text) ==> path in paths)
  }

  /** The same for the places below the first n children. */
  ghost predicate PathsTo(
    lib: Library, v: Json, keys: seq<string>, leaves: seq<Leaf>, paths: seq<seq<nat>>, n: nat)
  {
    && |paths| == |leaves| && InOrder(paths)
    && (forall i :: 0 <= i < |paths| ==>
          paths[i] != [] && paths[i][0] < n && LeafAt(lib, v, keys, paths[i], leaves[i]))
    && (forall path, text :: Shows(lib, v, path, text) && path != [] && path[0] < n ==> path in paths)
  }

  function Under(n: nat, paths: seq<seq<nat>>): seq<seq<nat>> {
    seq(|paths|, i requires 0 <= i < |paths| => [n] + paths[i])
  }

  lemma LeafUnder(lib: Library, v: Json, keys: seq<string>, n: nat, path: seq<nat>, leaf: Leaf)
    requires n < |Children(v)| && LeafAt(lib, Children(v)[n], keys + KeyOf(lib, v, n), path, leaf)
    ensures LeafAt(lib, v, keys, [n] + path, leaf)
  {
    assert ([n] + path)[1..] == path;
    var below := KeysOn(lib, Children(v)[n], path);
    assert keys + KeyOf(lib, v, n) + below == keys + (KeyOf(lib, v, n) + below);
  }

  lemma OrderUnder(n: nat, paths: seq<seq<nat>>, tails: seq<seq<nat>>)
    requires InOrder(paths) && InOrder(tails)
    requires forall i :: 0 <= i < |paths| ==> paths[i] != [] && paths[i][0] < n
    ensures InOrder(paths + Under(n, tails))
  {
    var all := paths + Under(n, tails);
    forall i, j | 0 <= i < j < |all|
      ensures Earlier(all[i], all[j])
    {
      if i >= |paths| {
        assert all[i][1..] == tails[i - |paths|] && all[j][1..] == tails[j - |paths|];
      }
    }
  }

  lemma CompleteUnder(lib: Library, v: Json, n: nat, tails: seq<seq<nat>>, path: seq<nat>, text: string)
    requires n < |Children(v)| && Shows(lib, v, path, text) && path != [] && path[0] == n
    requires forall tail, t :: Shows(lib, Children(v)[n], tail, t) ==> tail in tails
    ensures path in Under(n, tails)
  {
    assert Shows(lib, Children(v)[n], path[1..], text);
    var k :| 0 <= k < |tails| && tails[k] == path[1..];
    assert Under(n, tails)[k] == path;
  }

  /** The paths below one more child come after those below the children before. */
  lemma PathsAppend(
    lib: Library, v: Json, keys: seq<string>, n: nat,
    leaves: seq<Leaf>, paths: seq<seq<nat>>, below: seq<Leaf>, tails: seq<seq<nat>>)
    requires n < |Children(v)| && PathsTo(lib, v, keys, leaves, paths, n)
    requires PathsOf(lib, Children(v)[n], keys + KeyOf(lib, v, n), below, tails)
    ensures PathsTo(lib, v, keys, leaves + below, paths + Under(n, tails), n + 1)
  {
    var all := paths + Under(n, tails);
    OrderUnder(n, paths, tails);
    forall i | 0 <= i < |all|
      ensures all[i] != [] && all[i][0] < n + 1 && LeafAt(lib, v, keys, all[i], (leaves + below)[i])
    {
      if i >= |paths| {
        LeafUnder(lib, v, keys, n, tails[i - |paths|], below[i - |paths|]);
      }
    }
    forall path, text | Shows(lib, v, path, text) && path != [] && path[0] < n + 1
      ensures path in all
    {
      if path[0] == n {
        CompleteUnder(lib, v, n, tails, path, text);
      }
    }
  }

  /** The leaves of a value are exactly the places in it that show a text, each once and in document
      order, with the text shown there and the keys on the way. */
  lemma {:induction false} LeavesAreThePlaces(lib: Library, v: Json, keys: seq<string>) returns (paths: seq<seq<nat>>)
    ensures PathsOf(lib, v, keys, Leaves(lib, v, keys), paths)
    decreases v
  {
    match v
    case Array(items) =>
      paths := ItemPaths(lib, v, keys, |items|);
      assert items[..|items|] == items;
    case Object(entries) =>
      paths := EntryPaths(lib, v, keys, |entries|);
      assert entries[..|entries|] == entries;
    case _ =>
      paths := if Scalar(lib, v).Some? then [[]] else [];
  }

  lemma {:induction false} ItemPaths(lib: Library, v: Json, keys: seq<string>, n: nat) returns (paths: seq<seq<nat>>)
    requires v.Array? && n <= |v.items|
    ensures PathsTo(lib, v, keys, ItemLeaves(lib, v.items[..n], keys), paths, n)
    decreases v, n
  {
    if n == 0 {
      paths := [];
    } else {
      paths := ItemPaths(lib, v, keys, n - 1);
      var tails := LeavesAreThePlaces(lib, v.items[n - 1], keys);
      assert keys + [] == keys;
      ItemLeavesNext(lib, v.items, n - 1, keys);
      PathsAppend(lib, v, keys, n - 1, ItemLeaves(lib, v.items[..n - 1], keys), paths,
                  Leaves(lib, v.items[n - 1], keys), tails);
      paths := paths + Under(n - 1, tails);
    }
  }

  lemma {:induction false} EntryPaths(lib: Library, v: Json, keys: seq<string>, n: nat) returns (paths: seq<seq<nat>>)
    requires v.Object? && n <= |v.entries|
    ensures PathsTo(lib, v, keys, EntryLeaves(lib, v.entries[..n], keys), paths, n)
    decreases v, n
  {
    if n == 0 {
      paths := [];
    } else {
      paths := EntryPaths(lib, v, keys, n - 1);
      var entry := v.entries[n - 1];
      var tails := LeavesAreThePlaces(lib, entry.value, keys + [lib.lower(entry.key)]);
      EntryLeavesNext(lib, v.entries, n - 1, keys);
      PathsAppend(lib, v, keys, n - 1, EntryLeaves(lib, v.entries[..n - 1], keys), paths,
                  LeavesOfEntry(lib, entry, keys), tails);
      paths := paths + Under(n - 1, tails);
    }
  }

  // ----- Dotted paths

  /** The keys are non-empty and have no dots in them. */
  predicate Plain(keys: seq<string>) {
    forall i :: 0 <= i < |keys| ==> keys[i] != "" && '.' !in keys[i]
  }

  lemma LastDot(a: string, x: string, b: string, y: string)
    requires a + "." + x == b + "." + y && '.' !in x && '.' !in y
    ensures a == b && x == y
  {
    var all := a + "." + x;
    var other := b + "." + y;
    assert forall i :: |b| < i < |all| ==> other[i] == y[i - |b| - 1];
    assert forall i :: |a| < i < |all| ==> all[i] == x[i - |a| - 1];
    assert all[|a|] == '.' && other[|b|] == '.';
    assert |a| == |b|;
    assert all[..|a|] == a && all[|a| + 1..] == x;
    assert other[..|b|] == b && other[|b| + 1..] == y;
  }

  lemma {:induction false} DotsInPath(keys: seq<string>)
    requires Plain(keys) && keys != []
    ensures DottedPath(keys) != "" && ('.' in DottedPath(keys) <==> |keys| > 1)
    ensures |keys| == 1 ==> DottedPath(keys) == keys[0]
    ensures |keys| > 1 ==> DottedPath(keys) == DottedPath(keys[..|keys| - 1]) + "." + keys[|keys| - 1]
  {
    if |keys| > 1 {
      DotsInPath(keys[..|keys| - 1]);
      var init := DottedPath(keys[..|keys| - 1]);
      assert DottedPath(keys)[|init|] == '.';
    } else {
      assert keys[..0] == [];
    }
  }

  /** As long as keys are not empty and have no dots in them, a dotted path stands for one sequence of keys. */
  lemma {:induction false} DottedPathIsUnambiguous(keys: seq<string>, others: seq<string>)
    requires Plain(keys) && Plain(others) && keys != [] && others != []
    ensures DottedPath(keys) == DottedPath(others) <==> keys == others
    decreases |keys|
  {
    DotsInPath(keys);
    DotsInPath(others);
    if DottedPath(keys) == DottedPath(others) && |keys| > 1 {
      var init, last := keys[..|keys| - 1], others[..|others| - 1];
      LastDot(DottedPath(init), keys[|keys| - 1], DottedPath(last), others[|others| - 1]);
      DottedPathIsUnambiguous(init, last);
      assert keys == init + [keys[|keys| - 1]] && others == last + [others[|others| - 1]];
    } else if DottedPath(keys) == DottedPath(others) {
      assert keys == [keys[0]] && others == [others[0]];
    }
  }

  // ----- Iteration order

  /** The same value, with the entries of its objects in any order. */
  ghost predicate Reordered(v: Json, w: Json)
    decreases v
  {
    match v
    case Array(items) => w.Array? && ItemsReordered(items, w.items)
    case Object(entries) => w.Object? && EntriesReordered(entries, w.entries)
    case _ => v == w
  }

  ghost predicate ItemsReordered(a: seq<Json>, b: seq<Json>)
    decreases a
  {
    && |a| == |b|
    && (a != [] ==>
          && ItemsReordered(a[..|a| - 1], b[..|b| - 1])
          && Reordered(a[|a| - 1], b[|b| - 1]))
  }

  ghost predicate EntriesReordered(a: seq<Entry>, b: seq<Entry>)
    decreases a
  {
    && |a| == |b|
    && (a != [] ==>
          exists j :: 0 <= j < |b|
            && a[|a| - 1].key == b[j].key
            && Reordered(a[|a| - 1].value, b[j].value)
            && EntriesReordered(a[..|a| - 1], b[..j] + b[j + 1..]))
  }

  lemma {:induction false} EntryLeavesJoin(lib: Library, a: seq<Entry>, b: seq<Entry>, keys: seq<string>)
    ensures EntryLeaves(lib, a + b, keys) == EntryLeaves(lib, a, keys) + EntryLeaves(lib, b, keys)
  {
    if b == [] {
      assert a + b == a;
    } else {
      EntryLeavesJoin(lib, a, b[..|b| - 1], keys);
      assert (a + b)[..|a + b| - 1] == a + b[..|b| - 1];
    }
  }

  lemma EntryLeavesWithout(lib: Library, entries: seq<Entry>, j: nat, keys: seq<string>)
    requires j < |entries|
    ensures multiset(EntryLeaves(lib, entries, keys))
         == multiset(EntryLeaves(lib, entries[..j] + entries[j + 1..], keys))
          + multiset(LeavesOfEntry(lib, entries[j], keys))
  {
    EntryLeavesNext(lib, entries, j, keys);
    EntryLeavesJoin(lib, entries[..j + 1], entries[j + 1..], keys);
    EntryLeavesJoin(lib, entries[..j], entries[j + 1..], keys);
    assert entries[..j + 1] + entries[j + 1..] == entries;
  }

  /** Reordering moves leaves about and does nothing else. */
  lemma {:induction false} SameLeaves(lib: Library, v: Json, w: Json, keys: seq<string>)
    requires Reordered(v, w)
    ensures multiset(Leaves(lib, v, keys)) == multiset(Leaves(lib, w, keys))
    decreases v
  {
    match v
    case Array(items) => SameItemLeaves(lib, items, w.items, keys);
    case Object(entries) => SameEntryLeaves(lib, entries, w.entries, keys);
    case _ =>
  }

  lemma {:induction false} SameItemLeaves(lib: Library, a: seq<Json>, b: seq<Json>, keys: seq<string>)
    requires ItemsReordered(a, b)
    ensures multiset(ItemLeaves(lib, a, keys)) == multiset(ItemLeaves(lib, b, keys))
    decreases a
  {
    if a != [] {
      SameItemLeaves(lib, a[..|a| - 1], b[..|b| - 1], keys);
      SameLeaves(lib, a[|a| - 1], b[|b| - 1], keys);
    }
  }

  lemma {:induction false} SameEntryLeaves(lib: Library, a: seq<Entry>, b: seq<Entry>, keys: seq<string>)
    requires EntriesReordered(a, b)
    ensures multiset(EntryLeaves(lib, a, keys)) == multiset(EntryLeaves(lib, b, keys))
    decreases a
  {
    if a != [] {
      var last := a[|a| - 1];
      var j :| 0 <= j < |b| && last.key == b[j].key && Reordered(last.value, b[j].value)
        && EntriesReordered(a[..|a| - 1], b[..j] + b[j + 1..]);
      SameEntryLeaves(lib, a[..|a| - 1], b[..j] + b[j + 1..], keys);
      SameLeaves(lib, last.value, b[j].value, keys + [lib.lower(last.key)]);
      EntryLeavesWithout(lib, b, j, keys);
    }
  }

  lemma Without<T>(a: seq<T>, b: seq<T>) returns (j: nat)
    requires a != [] && multiset(a) == multiset(b)
    ensures j < |b| && b[j] == a[|a| - 1] && multiset(a[..|a| - 1]) == multiset(b[..j] + b[j + 1..])
    ensures b == b[..j] + [b[j]] + b[j + 1..]
  {
    var x := a[|a| - 1];
    assert a == a[..|a| - 1] + [x];
    assert x in multiset(b);
    j :| 0 <= j < |b| && b[j] == x;
    assert b == b[..j] + [x] + b[j + 1..];
    assert multiset(a[..|a| - 1]) == multiset(a) - multiset{x};
    assert multiset(b[..j] + b[j + 1..]) == multiset(b) - multiset{x};
  }

  /** The chosen texts of a list, as a multiset, are those of one leaf and those of the others. */
  lemma ChosenTextsWithout(leaves: seq<Leaf>, j: nat, selected: set<string>)
    requires j < |leaves|
    ensures multiset(ChosenTexts(leaves, selected))
         == multiset(ChosenTexts(leaves[..j] + leaves[j + 1..], selected))
          + multiset(ChosenTexts([leaves[j]], selected))
  {
    var before, leaf, after := leaves[..j], [leaves[j]], leaves[j + 1..];
    assert leaves == before + leaf + after;
    ChosenTextsJoin(before, leaf, selected);
    ChosenTextsJoin(before + leaf, after, selected);
    ChosenTextsJoin(before, after, selected);
  }

  lemma {:induction false} SameChosenTexts(a: seq<Leaf>, b: seq<Leaf>, selected: set<string>)
    requires multiset(a) == multiset(b)
    ensures multiset(ChosenTexts(a, selected)) == multiset(ChosenTexts(b, selected))
  {
    if a == [] {
      assert |multiset(b)| == 0;
    } else {
      var j := Without(a, b);
      SameChosenTexts(a[..|a| - 1], b[..j] + b[j + 1..], selected);
      ChosenTextsWithout(b, j, selected);
      ChosenTextsWithout(a, |a| - 1, selected);
      assert a[..|a| - 1] + a[|a|..] == a[..|a| - 1];
    }
  }

  lemma {:induction false} SameTexts(a: seq<Leaf>, b: seq<Leaf>)
    requires multiset(a) == multiset(b)
    ensures multiset(Texts(a)) == multiset(Texts(b))
  {
    if a == [] {
      assert |multiset(b)| == 0;
    } else {
      var j := Without(a, b);
      SameTexts(a[..|a| - 1], b[..j] + b[j + 1..]);
      TextsJoin(b[..j], b[j + 1..]);
      TextsJoin(b[..j] + [b[j]], b[j + 1..]);
      TextsJoin(b[..j], [b[j]]);
      TextsJoin(a[..|a| - 1], [b[j]]);
      assert a == a[..|a| - 1] + [b[j]];
    }
  }

  /** Whatever order the entries of the objects are visited in, the same texts are collected, the same
      number of times. */
  lemma OrderDoesNotMatter(lib: Library, v: Json, w: Json, selected: set<string>)
    requires Reordered(v, w)
    ensures multiset(ChosenTexts(Leaves(lib, v, []), selected)) == multiset(ChosenTexts(Leaves(lib, w, []), selected))
    ensures multiset(Texts(Leaves(lib, v, []))) == multiset(Texts(Leaves(lib, w, [])))
  {
    SameLeaves(lib, v, w, []);
    SameChosenTexts(Leaves(lib, v, []), Leaves(lib, w, []), selected);
    SameTexts(Leaves(lib, v, []), Leaves(lib, w, []));
  }
}
