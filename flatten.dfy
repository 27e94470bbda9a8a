/** The corpus flattener of app.py (`smart_flatten`): a depth-first walk over the
    parsed knowledge document that emits `(source, content)` chunks in order.
    `Flatten` is the recursive specification; `SmartFlatten` is the walk as the
    source writes it, with a `chunks` list grown by loops, proved equal to it. */
module Flattener {
  import opened Wrappers
  import opened Strings

  /** A parsed JSON value as the walk distinguishes it. A dict is its entries in
      insertion order; `Other` stands for numbers, booleans and null. */
  datatype Node =
    | Dict(entries: seq<(string, Node)>)
    | List(items: seq<Node>)
    | Str(s: string)
    | Other

  /** One chunk: a breadcrumb and the value found there. The descriptive value is
      taken as it is, without checking that it is a string, so content is a Node. */
  datatype Chunk = Chunk(source: string, content: Node)

  const DescriptionKey := "descripcion"
  const LabelKey := "etiqueta"
  const Arrow := " -> "
  const LabelPrefix := "Etiqueta "

  /** `data[key]` on a dict given by its entries; None when the key is absent.
      A dict has distinct keys, so the first match is the only one. */
  function Lookup(entries: seq<(string, Node)>, key: string): (r: Option<Node>)
    ensures r.None? <==> forall i | 0 <= i < |entries| :: entries[i].0 != key
    ensures r.Some? ==> (key, r.value) in entries
  {
    if entries == [] then None
    else if entries[0].0 == key then Some(entries[0].1)
    else Lookup(entries[1..], key)
  }

  /** The label is formatted into the breadcrumb only for a dict that has a
      description; the model admits string labels there. */
  predicate LabelIsText(entries: seq<(string, Node)>)
  {
    (Lookup(entries, DescriptionKey).Some? && Lookup(entries, LabelKey).Some?) ==>
      Lookup(entries, LabelKey).value.Str?
  }

  /** Every labelled dict in the tree has a string label. */
  predicate WellLabelled(n: Node)
    decreases n
  {
    match n
    case Dict(es) => LabelIsText(es) && forall i | 0 <= i < |es| :: WellLabelled(es[i].1)
    case List(xs) => forall i | 0 <= i < |xs| :: WellLabelled(xs[i])
    case _ => true
  }

  predicate EntriesWellLabelled(entries: seq<(string, Node)>)
  {
    forall i | 0 <= i < |entries| :: WellLabelled(entries[i].1)
  }

  predicate ItemsWellLabelled(items: seq<Node>)
  {
    forall i | 0 <= i < |items| :: WellLabelled(items[i])
  }

  /** The breadcrumb of a dict's child under `key`: the key alone at the root,
      otherwise the parent's breadcrumb, one arrow, then the key. */
  function ChildSource(parent: string, key: string): (r: string)
    ensures parent == "" ==> r == key
    ensures parent != "" ==> ExtendsBy(r, parent + Arrow) && r[|parent + Arrow|..] == key
  {
    if parent != "" then parent + Arrow + key else key
  }

  /** The label of a described dict, if it has one: the text stored under the
      label key. */
  function Label(entries: seq<(string, Node)>): (r: Option<string>)
    requires LabelIsText(entries) && Lookup(entries, DescriptionKey).Some?
    ensures r.Some? <==> Lookup(entries, LabelKey).Some?
    ensures r.Some? ==> (LabelKey, Str(r.value)) in entries
  {
    match Lookup(entries, LabelKey)
    case None => None
    case Some(v) => Some(v.s)
  }

  /** Filtering the breadcrumb parts drops only an empty parent: the label
      annotation always starts with its prefix. */
  lemma DescParts(parent: string, annotation: string)
    requires annotation != ""
    ensures NonEmpty([parent]) == if parent == "" then [] else [parent]
    ensures NonEmpty([parent, annotation]) == if parent == "" then [annotation] else [parent, annotation]
  {
  }

  /** The source of a description chunk: the non-empty ones of the parent
      breadcrumb and the label annotation, joined by the arrow. */
  function DescSource(parent: string, labelText: Option<string>): (r: string)
    ensures labelText.None? ==> r == parent
    ensures labelText.Some? && parent == "" ==> r == LabelPrefix + labelText.value
    ensures labelText.Some? && parent != "" ==> r == parent + Arrow + LabelPrefix + labelText.value
  {
    var annotation := LabelPrefix + labelText.GetOr("");
    assert annotation[0] == LabelPrefix[0];
    DescParts(parent, annotation);
    Join(Arrow, NonEmpty([parent] + if labelText.Some? then [annotation] else []))
  }

  /** The chunk a dict emits for its own description: one exactly when the dict
      has a description, carrying that value at the description's source. */
  function DescChunks(entries: seq<(string, Node)>, parent: string): (r: seq<Chunk>)
    requires LabelIsText(entries)
    ensures |r| <= 1
    ensures r != [] <==> Lookup(entries, DescriptionKey).Some?
    ensures r != [] ==> r[0].content == Lookup(entries, DescriptionKey).value
                        && r[0].source == DescSource(parent, Label(entries))
  {
    match Lookup(entries, DescriptionKey)
    case None => []
    case Some(d) => [Chunk(DescSource(parent, Label(entries)), d)]
  }

  /** `source` lies under the breadcrumb `parent`: it is `parent` or extends it by
      at least one more arrow-separated step. Everything lies under the root. */
  predicate Within(source: string, parent: string)
  {
    parent == "" || source == parent || ExtendsBy(source, parent + Arrow)
  }

  /** `prefix` is an initial segment of `s`. */
  predicate ExtendsBy(s: string, prefix: string)
  {
    |prefix| <= |s| && s[..|prefix|] == prefix
  }

  /** What lies under a child's breadcrumb lies under its parent's. */
  lemma ChildWithin(parent: string, key: string, chunks: seq<Chunk>)
    requires forall c | c in chunks :: Within(c.source, ChildSource(parent, key))
    ensures forall c | c in chunks :: Within(c.source, parent)
  {
  }

  /** The chunks of `smart_flatten(n, parent)`. Every breadcrumb it emits lies
      under `parent`. */
  function Flatten(n: Node, parent: string): (r: seq<Chunk>)
    requires WellLabelled(n)
    ensures forall c | c in r :: Within(c.source, parent)
    decreases n
  {
    match n
    case Dict(es) => DescChunks(es, parent) + FlattenEntries(es, parent)
    case List(xs) => FlattenItems(xs, parent)
    case Str(_) => if parent != "" then [Chunk(parent, n)] else []
    case Other => []
  }

  /** The chunks of a dict's entries walked in insertion order. */
  function FlattenEntries(entries: seq<(string, Node)>, parent: string): (r: seq<Chunk>)
    requires EntriesWellLabelled(entries)
    ensures forall c | c in r :: Within(c.source, parent)
    decreases entries
  {
    if entries == [] then []
    else EntryChunks(entries[0], parent) + FlattenEntries(entries[1..], parent)
  }

  /** The chunks of one entry: none for the description key, otherwise the
      value's, one breadcrumb step deeper. */
  function EntryChunks(entry: (string, Node), parent: string): (r: seq<Chunk>)
    requires WellLabelled(entry.1)
    ensures forall c | c in r :: Within(c.source, parent)
    decreases entry
  {
    if entry.0 == DescriptionKey then []
    else
      var sub := Flatten(entry.1, ChildSource(parent, entry.0));
      ChildWithin(parent, entry.0, sub);
      sub
  }

  /** The chunks of a list's items, all under the list's own breadcrumb. */
  function FlattenItems(items: seq<Node>, parent: string): (r: seq<Chunk>)
    requires ItemsWellLabelled(items)
    ensures forall c | c in r :: Within(c.source, parent)
    decreases items
  {
    if items == [] then []
    else Flatten(items[0], parent) + FlattenItems(items[1..], parent)
  }

  /** A string emits one chunk when it has a breadcrumb and none at the root;
      any other scalar emits nothing. */
  lemma LeafChunks(s: string, parent: string)
    ensures parent != "" ==> Flatten(Str(s), parent) == [Chunk(parent, Str(s))]
    ensures parent == "" ==> Flatten(Str(s), parent) == []
    ensures Flatten(Other, parent) == []
  {
  }

  lemma ItemsWellLabelledAppend(xs: seq<Node>, ys: seq<Node>)
    requires ItemsWellLabelled(xs) && ItemsWellLabelled(ys)
    ensures ItemsWellLabelled(xs + ys)
  {
  }

  lemma EntriesWellLabelledAppend(es: seq<(string, Node)>, fs: seq<(string, Node)>)
    requires EntriesWellLabelled(es) && EntriesWellLabelled(fs)
    ensures EntriesWellLabelled(es + fs)
  {
  }

  lemma {:induction false} FlattenItemsAppend(xs: seq<Node>, ys: seq<Node>, parent: string)
    requires ItemsWellLabelled(xs) && ItemsWellLabelled(ys)
    ensures ItemsWellLabelled(xs + ys)
    ensures FlattenItems(xs + ys, parent) == FlattenItems(xs, parent) + FlattenItems(ys, parent)
  {
    ItemsWellLabelledAppend(xs, ys);
    if xs == [] {
      assert xs + ys == ys;
    } else {
      var zs := xs + ys;
      assert zs[0] == xs[0];
      assert zs[1..] == xs[1..] + ys;
      FlattenItemsAppend(xs[1..], ys, parent);
      calc {
        FlattenItems(zs, parent);
        Flatten(xs[0], parent) + FlattenItems(xs[1..] + ys, parent);
        Flatten(xs[0], parent) + (FlattenItems(xs[1..], parent) + FlattenItems(ys, parent));
        (Flatten(xs[0], parent) + FlattenItems(xs[1..], parent)) + FlattenItems(ys, parent);
      }
    }
  }

  lemma {:induction false} FlattenEntriesAppend(es: seq<(string, Node)>, fs: seq<(string, Node)>, parent: string)
    requires EntriesWellLabelled(es) && EntriesWellLabelled(fs)
    ensures EntriesWellLabelled(es + fs)
    ensures FlattenEntries(es + fs, parent) == FlattenEntries(es, parent) + FlattenEntries(fs, parent)
  {
    EntriesWellLabelledAppend(es, fs);
    if es == [] {
      assert es + fs == fs;
    } else {
      var gs := es + fs;
      assert gs[0] == es[0];
      assert gs[1..] == es[1..] + fs;
      FlattenEntriesAppend(es[1..], fs, parent);
      calc {
        FlattenEntries(gs, parent);
        EntryChunks(es[0], parent) + FlattenEntries(es[1..] + fs, parent);
        EntryChunks(es[0], parent) + (FlattenEntries(es[1..], parent) + FlattenEntries(fs, parent));
        (EntryChunks(es[0], parent) + FlattenEntries(es[1..], parent)) + FlattenEntries(fs, parent);
      }
    }
  }

  /** A list's chunks are its items' chunks concatenated in order, each item
      walked with the list's own breadcrumb: splitting a list splits its chunks,
      and a one-item list is transparent. */
  lemma {:induction false} ListConcat(xs: seq<Node>, ys: seq<Node>, parent: string)
    requires WellLabelled(List(xs)) && WellLabelled(List(ys))
    ensures WellLabelled(List(xs + ys))
    ensures Flatten(List(xs + ys), parent) == Flatten(List(xs), parent) + Flatten(List(ys), parent)
  {
    FlattenItemsAppend(xs, ys, parent);
  }

  lemma ListOfOne(x: Node, parent: string)
    requires WellLabelled(x)
    ensures WellLabelled(List([x]))
    ensures Flatten(List([x]), parent) == Flatten(x, parent)
  {
    assert [x][1..] == [];
    assert FlattenItems([x], parent) == Flatten(x, parent) + [];
  }

  /** A dict with a description emits the description chunk first, its breadcrumb
      being the parent's (with the label annotation when labelled), its content
      the description value. */
  lemma DescriptionFirst(es: seq<(string, Node)>, parent: string)
    requires WellLabelled(Dict(es))
    requires Lookup(es, DescriptionKey).Some?
    ensures Flatten(Dict(es), parent) != []
    ensures Flatten(Dict(es), parent)[0] == Chunk(DescSource(parent, Label(es)), Lookup(es, DescriptionKey).value)
  {
  }

  /** A dict without a description emits only its entries' chunks. */
  lemma NoDescription(es: seq<(string, Node)>, parent: string)
    requires WellLabelled(Dict(es))
    requires Lookup(es, DescriptionKey).None?
    ensures Flatten(Dict(es), parent) == FlattenEntries(es, parent)
  {
  }

  /** Every entry other than the description is walked in insertion order, one
      breadcrumb step deeper; the label entry is no exception. The description
      entry contributes nothing of its own. */
  lemma {:induction false} EntryInOrder(before: seq<(string, Node)>, key: string, value: Node,
                                        after: seq<(string, Node)>, parent: string)
    requires EntriesWellLabelled(before) && WellLabelled(value) && EntriesWellLabelled(after)
    ensures EntriesWellLabelled(before + [(key, value)] + after)
    ensures FlattenEntries(before + [(key, value)] + after, parent) ==
      FlattenEntries(before, parent)
      + (if key == DescriptionKey then [] else Flatten(value, ChildSource(parent, key)))
      + FlattenEntries(after, parent)
  {
    var one := [(key, value)];
    assert EntriesWellLabelled(one);
    assert FlattenEntries(one, parent) == EntryChunks((key, value), parent) + FlattenEntries([], parent) by {
      assert one[1..] == [];
    }
    FlattenEntriesAppend(before, one, parent);
    FlattenEntriesAppend(before + one, after, parent);
  }

  /** With a non-empty breadcrumb, every emitted breadcrumb is non-empty and
      either is the parent's or starts with the parent's followed by the arrow. */
  lemma SourcesUnderParent(n: Node, parent: string, c: Chunk)
    requires WellLabelled(n) && parent != ""
    requires c in Flatten(n, parent)
    ensures c.source == parent || ExtendsBy(c.source, parent + Arrow)
    ensures c.source != ""
  {
  }

  lemma EntriesPrefixStep(es: seq<(string, Node)>, i: nat, parent: string)
    requires EntriesWellLabelled(es) && i < |es|
    ensures EntriesWellLabelled(es[..i]) && EntriesWellLabelled(es[..i + 1])
    ensures FlattenEntries(es[..i + 1], parent) == FlattenEntries(es[..i], parent) + EntryChunks(es[i], parent)
  {
    assert es[..i + 1] == es[..i] + [es[i]];
    assert FlattenEntries([es[i]], parent) == EntryChunks(es[i], parent) + FlattenEntries([], parent) by {
      assert [es[i]][1..] == [];
    }
    FlattenEntriesAppend(es[..i], [es[i]], parent);
  }

  lemma ItemsPrefixStep(xs: seq<Node>, i: nat, parent: string)
    requires ItemsWellLabelled(xs) && i < |xs|
    ensures ItemsWellLabelled(xs[..i]) && ItemsWellLabelled(xs[..i + 1])
    ensures FlattenItems(xs[..i + 1], parent) == FlattenItems(xs[..i], parent) + Flatten(xs[i], parent)
  {
    assert xs[..i + 1] == xs[..i] + [xs[i]];
    assert FlattenItems([xs[i]], parent) == Flatten(xs[i], parent) + FlattenItems([], parent) by {
      assert [xs[i]][1..] == [];
    }
    FlattenItemsAppend(xs[..i], [xs[i]], parent);
  }

  /** `smart_flatten` as written: a chunk list grown by `append` and `extend`.
      Its two loops, over a dict's items and over a list's elements, are the
      methods below, each making the recursive call per child. It computes
      exactly `Flatten(data, parentSource)`. */
  method SmartFlatten(data: Node, parentSource: string) returns (chunks: seq<Chunk>)
    requires WellLabelled(data)
    ensures chunks == Flatten(data, parentSource)
    decreases data, 1
  {
    chunks := [];
    match data {
      case Dict(es) =>
        var description := Lookup(es, DescriptionKey);
        if description.Some? {
          var sourceParts := [parentSource];
          var labelEntry := Lookup(es, LabelKey);
          if labelEntry.Some? {
            sourceParts := sourceParts + [LabelPrefix + labelEntry.value.s];
          }
          var source := Join(Arrow, NonEmpty(sourceParts));
          chunks := chunks + [Chunk(source, description.value)];
        }
        assert chunks == DescChunks(es, parentSource);
        var rest := SmartFlattenEntries(es, parentSource);
        chunks := chunks + rest;
      case List(xs) =>
        chunks := SmartFlattenItems(xs, parentSource);
      case Str(_) =>
        if parentSource != "" {
          chunks := chunks + [Chunk(parentSource, data)];
        }
      case Other =>
    }
  }

  /** The loop of `smart_flatten` over a dict's items: every key but the
      description is walked, one breadcrumb step deeper, in insertion order. */
  method SmartFlattenEntries(es: seq<(string, Node)>, parentSource: string) returns (chunks: seq<Chunk>)
    requires EntriesWellLabelled(es)
    ensures chunks == FlattenEntries(es, parentSource)
    decreases es, 0
  {
    chunks := [];
    var i := 0;
    while i < |es|
      invariant 0 <= i <= |es|
      invariant chunks == FlattenEntries(es[..i], parentSource)
    {
      EntriesPrefixStep(es, i, parentSource);
      var (key, value) := es[i];
      assert value < es[i];
      if key != DescriptionKey {
        var newSource := if parentSource != "" then parentSource + Arrow + key else key;
        var sub := SmartFlatten(value, newSource);
        chunks := chunks + sub;
      }
      i := i + 1;
    }
    assert es[..|es|] == es;
  }

  /** The loop of `smart_flatten` over a list's elements, each walked with the
      list's own breadcrumb. */
  method SmartFlattenItems(xs: seq<Node>, parentSource: string) returns (chunks: seq<Chunk>)
    requires ItemsWellLabelled(xs)
    ensures chunks == FlattenItems(xs, parentSource)
    decreases xs, 0
  {
    chunks := [];
    var i := 0;
    while i < |xs|
      invariant 0 <= i <= |xs|
      invariant chunks == FlattenItems(xs[..i], parentSource)
    {
      ItemsPrefixStep(xs, i, parentSource);
      var sub := SmartFlatten(xs[i], parentSource);
      chunks := chunks + sub;
      i := i + 1;
    }
    assert xs[..|xs|] == xs;
  }
}
