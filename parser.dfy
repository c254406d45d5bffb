/**
 * `parse_cards` (deck_pdf_generator/parser.py): each `<card>` child of the
 * root becomes a record, repeated `count` times. The root element is given
 * already parsed; reading the file and XInclude are not modelled.
 */
module Parser {
  import opened Wrappers
  import opened Strings
  import opened Decimal
  import opened Xml
  import opened Config
  import opened Cards

  /** The variant children, in the order they are tried. */
  const Variants: seq<string> := ["monster", "biome", "npc", "quest", "curse", "health"]

  /** The front glyphs a loot card gets from its school when it names none. */
  const SchoolIcons: map<string, string> := map[
    "attack" := "\U{2694}\U{FE0F}",
    "defense" := "\U{1F6E1}\U{FE0F}",
    "spell" := "\U{2728}",
    "utility" := "\U{2699}\U{FE0F}"]

  // ---------------------------------------------------------------- tags

  /** `[t.strip() for t in pieces if t.strip()]`. */
  function CleanPieces(ps: seq<string>): (r: seq<string>)
    ensures |r| <= |ps|
    ensures forall j :: 0 <= j < |r| ==> r[j] != "" && Clean(r[j])
    decreases |ps|
  {
    if ps == [] then [] else (if Strip(ps[0]) != "" then [Strip(ps[0])] else []) + CleanPieces(ps[1..])
  }

  /** The tags of a `tags="a, b,c"` attribute. */
  function SplitTags(raw: string): seq<string> {
    CleanPieces(SplitOn(raw, ','))
  }

  /** A tag as `SplitTags` produces it: non-empty, no surrounding whitespace, no comma. */
  predicate ValidTag(t: string) {
    t != "" && Clean(t) && ',' !in t
  }

  lemma StripKeepsOut(s: string, c: char)
    requires c !in s
    ensures c !in Strip(s)
  {
    var r := Strip(s);
    StripChars(s);
    forall k | 0 <= k < |r| ensures r[k] != c {
      assert r[k] == s[Leading(s) + k];
    }
  }

  lemma {:induction false} CleanPiecesValid(ps: seq<string>, c: char)
    requires forall i :: 0 <= i < |ps| ==> c !in ps[i]
    ensures forall j :: 0 <= j < |CleanPieces(ps)| ==> c !in CleanPieces(ps)[j]
    decreases |ps|
  {
    if ps != [] {
      StripKeepsOut(ps[0], c);
      CleanPiecesValid(ps[1..], c);
    }
  }

  /** Every tag is non-empty, stripped and comma-free. */
  lemma SplitTagsValid(raw: string)
    ensures forall j :: 0 <= j < |SplitTags(raw)| ==> ValidTag(SplitTags(raw)[j])
  {
    CleanPiecesValid(SplitOn(raw, ','), ',');
  }

  lemma CleanPiecesCons(p: string, ps: seq<string>)
    requires Strip(p) != ""
    ensures CleanPieces([p] + ps) == [Strip(p)] + CleanPieces(ps)
  {
    assert ([p] + ps)[1..] == ps;
  }

  lemma NoCommaAfterSpaces(pre: string, t: string)
    requires forall k :: 0 <= k < |pre| ==> IsSpace(pre[k])
    requires ',' !in t
    ensures ',' !in pre + t
  {
    var s := pre + t;
    forall k | 0 <= k < |s| ensures s[k] != ',' {
      if k < |pre| { assert IsSpace(s[k]); } else { assert s[k] == t[k - |pre|]; }
    }
  }

  lemma CommaRegroup(pre: string, t: string, rest: string)
    ensures pre + (t + ", " + rest) == (pre + t) + [','] + (" " + rest)
  {
    assert ", " == [','] + " ";
  }

  /** Leading spaces and one tag form a single piece that strips to the tag. */
  lemma SplitOneTag(pre: string, t: string)
    requires forall k :: 0 <= k < |pre| ==> IsSpace(pre[k])
    requires ValidTag(t)
    ensures CleanPieces(SplitOn(pre + t, ',')) == [t]
  {
    NoCommaAfterSpaces(pre, t);
    StripAfterSpaces(pre, t);
    SplitOnNoSep(pre + t, ',');
    CleanPiecesCons(pre + t, []);
  }

  /** Leading spaces, a tag, a comma and the rest: the tag is the first piece. */
  lemma SplitFirstTag(pre: string, t: string, rest: string)
    requires forall k :: 0 <= k < |pre| ==> IsSpace(pre[k])
    requires ValidTag(t)
    ensures CleanPieces(SplitOn(pre + (t + ", " + rest), ',')) == [t] + CleanPieces(SplitOn(" " + rest, ','))
  {
    NoCommaAfterSpaces(pre, t);
    StripAfterSpaces(pre, t);
    CommaRegroup(pre, t, rest);
    SplitOnAt(pre + t, ',', " " + rest);
    CleanPiecesCons(pre + t, SplitOn(" " + rest, ','));
  }

  lemma {:induction false} TagsAfterSpaces(pre: string, ts: seq<string>)
    requires forall k :: 0 <= k < |pre| ==> IsSpace(pre[k])
    requires ts != [] && forall j :: 0 <= j < |ts| ==> ValidTag(ts[j])
    ensures CleanPieces(SplitOn(pre + Join(", ", ts), ',')) == ts
    decreases |ts|
  {
    if |ts| == 1 {
      SplitOneTag(pre, ts[0]);
    } else {
      var rest := ts[1..];
      assert forall j :: 0 <= j < |rest| ==> ValidTag(rest[j]) by {
        forall j | 0 <= j < |rest| ensures ValidTag(rest[j]) {
          assert rest[j] == ts[j + 1];
        }
      }
      TagsAfterSpaces(" ", rest);
      assert Join(", ", ts) == ts[0] + ", " + Join(", ", rest);
      SplitFirstTag(pre, ts[0], Join(", ", rest));
      assert ts == [ts[0]] + rest;
    }
  }

  /** Tags joined as the footer joins them split back into the same tags. */
  lemma SplitTagsOfJoin(ts: seq<string>)
    requires forall j :: 0 <= j < |ts| ==> ValidTag(ts[j])
    ensures SplitTags(Join(", ", ts)) == ts
  {
    if ts != [] {
      TagsAfterSpaces("", ts);
      assert "" + Join(", ", ts) == Join(", ", ts);
    }
  }

  // ---------------------------------------------------------------- the fields of one node

  /** `int(s)`, with `default` where Python raises `ValueError`. */
  function IntOr(s: string, default: int): int {
    match ParseInt(s)
    case Some(n) => n
    case None => default
  }

  /** The fields `parse_cards` decides per branch: type, cost, school, slot, class, front icon and deck. */
  datatype Selection = Selection(
    cardType: string, cost: int,
    school: Option<string>, slot: Option<string>, klass: Option<string>,
    frontIcon: Option<string>, deck: Option<string>)

  /** A loot card's front icon: its own attribute, else its school's glyph, else the loot default for its type. */
  function LootFrontIcon(t: Theme, loot: Element, ctype: string): Option<string> {
    var fi := Attr(loot, "front_icon");
    if Present(fi) then fi
    else
      var school := Attr(loot, "school");
      if Present(school) && school.value in SchoolIcons then Some(SchoolIcons[school.value])
      else Get(t.lootFrontDefaults, ctype)
  }

  /**
   * The `<loot>` branch: everything is read from the loot child, and the deck is
   * `"loot"`; the type is `lootType` or `"ability"`, and the front icon is the
   * child's own, else its school's glyph, else the loot default for its type.
   */
  function LootSelection(t: Theme, loot: Element): (r: Selection)
    ensures r.deck == Some("loot")
    ensures r.cardType == AttrOr(loot, "lootType", "ability")
    ensures r.school == Attr(loot, "school") && r.slot == Attr(loot, "slot") && r.klass == Attr(loot, "class")
    ensures r.cost != 0 ==> "cost" in loot.attrib && ParseInt(loot.attrib["cost"]) == Some(r.cost)
    ensures Present(Attr(loot, "front_icon")) ==> r.frontIcon == Attr(loot, "front_icon")
    ensures !Present(Attr(loot, "front_icon")) && Present(Attr(loot, "school")) && Attr(loot, "school").value in SchoolIcons ==>
      r.frontIcon == Some(SchoolIcons[Attr(loot, "school").value])
    ensures !Present(Attr(loot, "front_icon")) && !(Present(Attr(loot, "school")) && Attr(loot, "school").value in SchoolIcons) ==>
      r.frontIcon == Get(t.lootFrontDefaults, AttrOr(loot, "lootType", "ability"))
  {
    var ctype := AttrOr(loot, "lootType", "ability");
    var cost := match Attr(loot, "cost") case None => 0 case Some(s) => IntOr(s, 0);
    Selection(ctype, cost, Attr(loot, "school"), Attr(loot, "slot"), Attr(loot, "class"),
      LootFrontIcon(t, loot, ctype), Some("loot"))
  }

  /** The index of the first variant at or after `j` that `node` has a child for. */
  function VariantFrom(node: Element, j: nat): (r: Option<nat>)
    ensures r.Some? ==> j <= r.value < |Variants| && Find(node, Variants[r.value]).Some?
    ensures r.Some? ==> forall k :: j <= k < r.value ==> Find(node, Variants[k]).None?
    ensures r.None? ==> forall k :: j <= k < |Variants| ==> Find(node, Variants[k]).None?
    decreases |Variants| - j
  {
    if j >= |Variants| then None
    else if Find(node, Variants[j]).Some? then Some(j)
    else VariantFrom(node, j + 1)
  }

  /** The cost of a card without a `<loot>` child, read from its own `cost` attribute. */
  function PlainCost(node: Element): int {
    IntOr(Strip(AttrOr(node, "cost", "0")), 0)
  }

  /** The ordinary branch before the variant search: the node's own attributes and no deck. */
  function PlainBase(node: Element): Selection {
    Selection(Strip(AttrOr(node, "type", "ability")), PlainCost(node),
      Attr(node, "school"), Attr(node, "slot"), Attr(node, "class"), Attr(node, "front_icon"), None)
  }

  /** Variant `j` found: it sets the deck and fills the front icon, and the type when the node has none. */
  function VariantSelection(t: Theme, node: Element, base: Selection, j: nat): Selection
    requires j < |Variants| && Find(node, Variants[j]).Some?
  {
    var v := Variants[j];
    base.(frontIcon := Or(Attr(Find(node, v).value, "front_icon"), Get(t.frontDeckIcons, v)),
          deck := Some(v),
          cardType := if "type" in node.attrib then base.cardType else v)
  }

  /**
   * The ordinary branch: the node's own attributes, with the first variant child
   * filling in a missing front icon. A deck is set exactly when the node has no
   * front icon of its own and has a variant child, and it is one of the variants.
   */
  function PlainSelection(t: Theme, node: Element): (r: Selection)
    ensures r.cost == PlainCost(node)
    ensures r.school == Attr(node, "school") && r.slot == Attr(node, "slot") && r.klass == Attr(node, "class")
    ensures r.deck.Some? <==> !Present(Attr(node, "front_icon")) && VariantFrom(node, 0).Some?
    ensures r.deck.Some? ==> r.deck.value in Variants
    ensures r.deck.None? ==> r.frontIcon == Attr(node, "front_icon") && r.cardType == Strip(AttrOr(node, "type", "ability"))
  {
    var base := PlainBase(node);
    if Present(base.frontIcon) then base
    else match VariantFrom(node, 0)
      case None => base
      case Some(j) => VariantSelection(t, node, base, j)
  }

  function SelectionOf(t: Theme, node: Element): Selection {
    match Find(node, "loot")
    case Some(loot) => LootSelection(t, loot)
    case None => PlainSelection(t, node)
  }

  /** The repetition count: an integer below 1 counts as 1, and so does anything that is not an integer. */
  function CountOf(node: Element): (n: nat)
    ensures n >= 1
  {
    match ParseInt(Strip(AttrOr(node, "count", "1")))
    case None => 1
    case Some(k) => if k < 1 then 1 else k
  }

  /** `int(m.attrib[key])` when present, `None` when missing or not an integer. */
  function StatOf(m: Element, key: string): Option<int> {
    match Attr(m, key)
    case None => None
    case Some(s) => ParseInt(s)
  }

  /** `lootBudget`, falling back to the `lootbudget` spelling when missing or empty. */
  function LootBudgetOf(m: Element): Option<int> {
    match Or(Attr(m, "lootBudget"), Attr(m, "lootbudget"))
    case None => None
    case Some(s) => ParseInt(s)
  }

  /** The monster figures of a record. */
  datatype Stats = Stats(hp: Option<int>, atk: Option<int>, lootBudget: Option<int>)

  /**
   * The figures of the first `<monster>` child, each `None` when missing or not
   * an integer, `lootBudget` before `lootbudget`; all `None` without a monster.
   */
  function StatsOf(node: Element): (r: Stats)
    ensures Find(node, "monster").None? ==> r == Stats(None, None, None)
    ensures Find(node, "monster").Some? ==> var m := Find(node, "monster").value;
      && r.hp == StatOf(m, "hp") && r.atk == StatOf(m, "atk")
      && (Present(Attr(m, "lootBudget")) ==> r.lootBudget == ParseInt(m.attrib["lootBudget"]))
      && (!Present(Attr(m, "lootBudget")) ==> r.lootBudget == StatOf(m, "lootbudget"))
  {
    match Find(node, "monster")
    case None => Stats(None, None, None)
    case Some(m) => Stats(StatOf(m, "hp"), StatOf(m, "atk"), LootBudgetOf(m))
  }

  /** `(node.findtext(tag) or "").strip()`. */
  function TextOf(node: Element, tag: string): string {
    Strip(FindText(node, tag).GetOr(""))
  }

  /** The id: the stripped attribute, or `"<type>_<k>"` with `k` one more than the cards emitted so far. */
  function IdOf(node: Element, ctype: string, emitted: nat): (id: string)
    ensures id != ""
    ensures Strip(AttrOr(node, "id", "")) != "" ==> id == Strip(AttrOr(node, "id", ""))
    ensures Strip(AttrOr(node, "id", "")) == "" ==> id == ctype + "_" + IntToString(emitted + 1)
  {
    var cid := Strip(AttrOr(node, "id", ""));
    if cid != "" then cid else ctype + "_" + IntToString(emitted + 1)
  }

  /** The record built for `node` when `emitted` cards precede it. */
  function RecordOf(t: Theme, node: Element, emitted: nat): (c: Card)
    ensures c.id != "" && c.count >= 1
    ensures c.biome == None && c.backIcon == None
    ensures c.tags.Some? && forall j :: 0 <= j < |c.tags.value| ==> c.tags.value[j] != ""
  {
    var sel := SelectionOf(t, node);
    var st := StatsOf(node);
    Card(
      IdOf(node, sel.cardType, emitted), sel.cardType, sel.cost,
      TextOf(node, "name"), TextOf(node, "subtitle"), TextOf(node, "text"),
      st.hp, st.atk, st.lootBudget,
      None, None, sel.school, sel.slot, sel.klass, sel.frontIcon, sel.deck,
      CountOf(node), Some(SplitTags(AttrOr(node, "tags", ""))))
  }

  function Repeat<T>(x: T, n: nat): (r: seq<T>)
    ensures |r| == n && forall i :: 0 <= i < n ==> r[i] == x
  {
    seq(n, _ => x)
  }

  lemma AppendCopy<T>(pre: seq<T>, x: T, k: nat)
    ensures pre + Repeat(x, k) + [x] == pre + Repeat(x, k + 1)
  {
    assert Repeat(x, k) + [x] == Repeat(x, k + 1);
  }

  /**
   * The repetition expansion, for any records: each node in order gives
   * `count(node)` copies of `rec(node, k)`, `k` being the number of copies
   * made before it.
   */
  function Expand<N, C>(nodes: seq<N>, rec: (N, nat) -> C, count: N -> nat): seq<C>
    decreases |nodes|
  {
    if nodes == [] then []
    else
      var prev := Expand(nodes[..|nodes| - 1], rec, count);
      var node := nodes[|nodes| - 1];
      prev + Repeat(rec(node, |prev|), count(node))
  }

  /** The number of copies `nodes` expands to. */
  function TotalCount<N>(nodes: seq<N>, count: N -> nat): nat
    decreases |nodes|
  {
    if nodes == [] then 0 else TotalCount(nodes[..|nodes| - 1], count) + count(nodes[|nodes| - 1])
  }

  /** The cards of `nodes`, in order, each record repeated `count` times. */
  function Parse(t: Theme, nodes: seq<Element>): (cards: seq<Card>)
    ensures |cards| == TotalCount(nodes, CountOf)
  {
    ExpandLength(nodes, (e: Element, k: nat) => RecordOf(t, e, k), CountOf);
    Expand(nodes, (e: Element, k: nat) => RecordOf(t, e, k), CountOf)
  }

  // ---------------------------------------------------------------- the loops

  /** The `<loot>` branch of `parse_cards`, reassigning its locals as the source does. */
  method ReadLoot(t: Theme, l: Element) returns (sel: Selection)
    ensures sel == LootSelection(t, l)
  {
    var ctype := "ability";
    var cost := 0;
    ctype := AttrOr(l, "lootType", ctype);
    var costStr := Attr(l, "cost");
    if costStr.Some? {
      var parsed := ParseInt(costStr.value);
      if parsed.Some? { cost := parsed.value; } else { cost := 0; }
    }
    var school := Attr(l, "school");
    var slot := Attr(l, "slot");
    var klass := Attr(l, "class");
    var frontIcon := Attr(l, "front_icon");
    if !Present(frontIcon) {
      frontIcon := None;
      if Present(school) && school.value in SchoolIcons {
        frontIcon := Some(SchoolIcons[school.value]);
      }
      if !Present(frontIcon) {
        frontIcon := Get(t.lootFrontDefaults, ctype);
      }
    }
    sel := Selection(ctype, cost, school, slot, klass, frontIcon, Some("loot"));
  }

  /** The branch without a `<loot>` child, with its for/break search over the variant children. */
  method ReadPlain(t: Theme, node: Element) returns (sel: Selection)
    ensures sel == PlainSelection(t, node)
  {
    var ctype := Strip(AttrOr(node, "type", "ability"));
    var costStr := Strip(AttrOr(node, "cost", "0"));
    var cost := 0;
    var parsed := ParseInt(costStr);
    if parsed.Some? { cost := parsed.value; } else { cost := 0; }
    var school := Attr(node, "school");
    var slot := Attr(node, "slot");
    var klass := Attr(node, "class");
    var frontIcon := Attr(node, "front_icon");
    var deck: Option<string> := None;
    ghost var base := Selection(ctype, cost, school, slot, klass, frontIcon, deck);
    assert base == PlainBase(node);
    if !Present(frontIcon) {
      for j := 0 to |Variants|
        invariant VariantFrom(node, j) == VariantFrom(node, 0)
        invariant Selection(ctype, cost, school, slot, klass, frontIcon, deck) == base
      {
        var v := Variants[j];
        var el := Find(node, v);
        if el.Some? {
          frontIcon := Or(Attr(el.value, "front_icon"), Get(t.frontDeckIcons, v));
          deck := Some(v);
          if "type" !in node.attrib {
            ctype := v;
          }
          assert Selection(ctype, cost, school, slot, klass, frontIcon, deck) == PlainSelection(t, node);
          break;
        }
      }
    }
    sel := Selection(ctype, cost, school, slot, klass, frontIcon, deck);
  }

  /** The body of `parse_cards`' loop for one `<card>` node, up to the appends: the record and its count. */
  method ReadCard(t: Theme, node: Element, emitted: nat) returns (card: Card, count: nat)
    ensures card == RecordOf(t, node, emitted)
    ensures count == CountOf(node)
  {
    var cid := Strip(AttrOr(node, "id", ""));
    var tags := SplitTags(AttrOr(node, "tags", ""));
    var name := TextOf(node, "name");
    var subtitle := TextOf(node, "subtitle");
    var effect := TextOf(node, "text");
    var sel;
    var loot := Find(node, "loot");
    if loot.Some? {
      sel := ReadLoot(t, loot.value);
    } else {
      sel := ReadPlain(t, node);
    }
    assert sel == SelectionOf(t, node);
    var countStr := Strip(AttrOr(node, "count", "1"));
    count := 1;
    var parsed := ParseInt(countStr);
    if parsed.Some? {
      if parsed.value < 1 { count := 1; } else { count := parsed.value; }
    }
    assert count == CountOf(node);
    if cid == "" {
      cid := sel.cardType + "_" + IntToString(emitted + 1);
    }
    assert cid == IdOf(node, sel.cardType, emitted);
    var m := Find(node, "monster");
    var hp: Option<int> := None;
    var atk: Option<int> := None;
    var lootBudget: Option<int> := None;
    if m.Some? {
      hp := StatOf(m.value, "hp");
      atk := StatOf(m.value, "atk");
      lootBudget := LootBudgetOf(m.value);
    }
    assert Stats(hp, atk, lootBudget) == StatsOf(node);
    card := Card(cid, sel.cardType, sel.cost, name, subtitle, effect, hp, atk, lootBudget,
      None, None, sel.school, sel.slot, sel.klass, sel.frontIcon, sel.deck, count, Some(tags));
  }

  /** `parse_cards(xml_path)`, given the parsed root and the loaded theme. */
  method ParseCards(t: Theme, root: Element) returns (cards: seq<Card>)
    ensures cards == Parse(t, FindAll(root, "card"))
  {
    var nodes := FindAll(root, "card");
    cards := [];
    for n := 0 to |nodes|
      invariant cards == Parse(t, nodes[..n])
    {
      var card, count := ReadCard(t, nodes[n], |cards|);
      ParseStep(t, nodes, n);
      cards := AppendCopies(cards, card, count);
    }
    assert nodes[..|nodes|] == nodes;
  }

  /** The copy loop: `for _ in range(count): cards.append(card)`. */
  method AppendCopies(cards: seq<Card>, card: Card, count: nat) returns (r: seq<Card>)
    ensures r == cards + Repeat(card, count)
  {
    r := cards;
    for k := 0 to count
      invariant r == cards + Repeat(card, k)
    {
      AppendCopy(cards, card, k);
      r := r + [card];
    }
  }

  // ---------------------------------------------------------------- properties

  lemma ExpandSnoc<N, C>(nodes: seq<N>, node: N, rec: (N, nat) -> C, count: N -> nat)
    ensures Expand(nodes + [node], rec, count) ==
      Expand(nodes, rec, count) + Repeat(rec(node, |Expand(nodes, rec, count)|), count(node))
  {
    assert (nodes + [node])[..|nodes|] == nodes;
  }

  lemma {:induction false} ExpandLength<N, C>(nodes: seq<N>, rec: (N, nat) -> C, count: N -> nat)
    ensures |Expand(nodes, rec, count)| == TotalCount(nodes, count)
    decreases |nodes|
  {
    if nodes != [] {
      ExpandLength(nodes[..|nodes| - 1], rec, count);
    }
  }

  /** The copies made for the first `k` nodes come first, unchanged by the nodes after them. */
  lemma {:induction false} ExpandPrefix<N, C>(nodes: seq<N>, k: nat, rec: (N, nat) -> C, count: N -> nat)
    requires k <= |nodes|
    ensures |Expand(nodes[..k], rec, count)| <= |Expand(nodes, rec, count)|
    ensures Expand(nodes[..k], rec, count) == Expand(nodes, rec, count)[..|Expand(nodes[..k], rec, count)|]
    decreases |nodes|
  {
    if k < |nodes| {
      var pre := nodes[..|nodes| - 1];
      ExpandPrefix(pre, k, rec, count);
      assert pre[..k] == nodes[..k];
    } else {
      assert nodes[..k] == nodes;
    }
  }

  /** Node `k` contributes `count` copies of its record, placed right after the copies made before it. */
  lemma ExpandBlock<N, C>(nodes: seq<N>, k: nat, rec: (N, nat) -> C, count: N -> nat)
    requires k < |nodes|
    ensures var off := |Expand(nodes[..k], rec, count)|;
      && off + count(nodes[k]) <= |Expand(nodes, rec, count)|
      && (forall i :: off <= i < off + count(nodes[k]) ==> Expand(nodes, rec, count)[i] == rec(nodes[k], off))
  {
    var off := |Expand(nodes[..k], rec, count)|;
    ExpandPrefix(nodes, k + 1, rec, count);
    assert nodes[..k + 1] == nodes[..k] + [nodes[k]];
    ExpandSnoc(nodes[..k], nodes[k], rec, count);
    var block := Expand(nodes[..k + 1], rec, count);
    forall i | off <= i < off + count(nodes[k])
      ensures Expand(nodes, rec, count)[i] == rec(nodes[k], off)
    {
      assert Expand(nodes, rec, count)[i] == block[i];
    }
  }

  /** Parsing one more node appends its block of records. */
  lemma ParseStep(t: Theme, nodes: seq<Element>, n: nat)
    requires n < |nodes|
    ensures Parse(t, nodes[..n + 1]) ==
      Parse(t, nodes[..n]) + Repeat(RecordOf(t, nodes[n], |Parse(t, nodes[..n])|), CountOf(nodes[n]))
  {
    assert nodes[..n + 1] == nodes[..n] + [nodes[n]];
    ExpandSnoc(nodes[..n], nodes[n], (e: Element, k: nat) => RecordOf(t, e, k), CountOf);
  }

  /**
   * Node `k` contributes a block of `count` equal records, placed right after
   * the cards of the nodes before it; a generated id numbers the block's
   * first position, so earlier repetitions advance it.
   */
  lemma NodeBlock(t: Theme, nodes: seq<Element>, k: nat)
    requires k < |nodes|
    ensures var off := |Parse(t, nodes[..k])|;
      && off + CountOf(nodes[k]) <= |Parse(t, nodes)|
      && (forall i :: off <= i < off + CountOf(nodes[k]) ==> Parse(t, nodes)[i] == RecordOf(t, nodes[k], off))
  {
    ExpandBlock(nodes, k, (e: Element, k: nat) => RecordOf(t, e, k), CountOf);
  }

  /**
   * A node without an id gives every one of its copies the id
   * `"<type>_<k>"`, `k` being one more than the number of cards the nodes
   * before it expand to.
   */
  lemma DefaultIds(t: Theme, nodes: seq<Element>, k: nat)
    requires k < |nodes|
    requires Strip(AttrOr(nodes[k], "id", "")) == ""
    ensures var off := |Parse(t, nodes[..k])|;
      && off == TotalCount(nodes[..k], CountOf)
      && off + CountOf(nodes[k]) <= |Parse(t, nodes)|
      && forall i :: off <= i < off + CountOf(nodes[k]) ==>
        Parse(t, nodes)[i].id == Parse(t, nodes)[i].cardType + "_" + IntToString(off + 1)
  {
    NodeBlock(t, nodes, k);
  }

  /** Every copy is one of the records `rec` builds. */
  lemma {:induction false} ExpandMembers<N, C>(nodes: seq<N>, rec: (N, nat) -> C, count: N -> nat, i: nat)
    requires i < |Expand(nodes, rec, count)|
    ensures exists j, k :: 0 <= j < |nodes| && Expand(nodes, rec, count)[i] == rec(nodes[j], k)
    decreases |nodes|
  {
    var pre := nodes[..|nodes| - 1];
    var prev := Expand(pre, rec, count);
    if i < |prev| {
      ExpandMembers(pre, rec, count, i);
      var j, k :| 0 <= j < |pre| && prev[i] == rec(pre[j], k);
      assert pre[j] == nodes[j];
    } else {
      assert Expand(nodes, rec, count)[i] == rec(nodes[|nodes| - 1], |prev|);
    }
  }

  /** Every card parsed has a non-empty id and a count of at least 1, and no biome or back icon. */
  lemma ParsedCardsWellFormed(t: Theme, nodes: seq<Element>, i: nat)
    requires i < |Parse(t, nodes)|
    ensures var c := Parse(t, nodes)[i];
      c.id != "" && c.count >= 1 && c.biome == None && c.backIcon == None
  {
    ExpandMembers(nodes, (e: Element, k: nat) => RecordOf(t, e, k), CountOf, i);
  }

  /**
   * The repetition count: a count attribute that `int()` reads as `n` gives `n`
   * copies for a positive `n` and one otherwise; a missing or unreadable count gives one.
   */
  lemma CountRule(node: Element, n: int)
    ensures "count" !in node.attrib ==> CountOf(node) == 1
    ensures "count" in node.attrib && ParseInt(node.attrib["count"]) == Some(n) ==> CountOf(node) == if n < 1 then 1 else n
    ensures Attr(node, "count") == Some(IntToString(n)) ==> CountOf(node) == if n < 1 then 1 else n
    ensures ParseInt(AttrOr(node, "count", "1")) == None ==> CountOf(node) == 1
  {
    ParseIntOfStrip(AttrOr(node, "count", "1"));
    if "count" !in node.attrib {
      ParseIntToString(1);
    }
    ParseIntToString(n);
  }

  /** A loot card's cost: whatever `int()` reads from the attribute, 0 when missing or not an integer. */
  lemma LootCostRule(t: Theme, loot: Element, n: int)
    ensures "cost" !in loot.attrib ==> LootSelection(t, loot).cost == 0
    ensures "cost" in loot.attrib && ParseInt(loot.attrib["cost"]) == Some(n) ==> LootSelection(t, loot).cost == n
    ensures Attr(loot, "cost") == Some(IntToString(n)) ==> LootSelection(t, loot).cost == n
    ensures "cost" in loot.attrib && ParseInt(loot.attrib["cost"]) == None ==> LootSelection(t, loot).cost == 0
  {
    ParseIntToString(n);
  }

  /** Any other card's cost: the same rule, read from the card's own attribute. */
  lemma PlainCostRule(node: Element, n: int)
    ensures "cost" !in node.attrib ==> PlainCost(node) == 0
    ensures "cost" in node.attrib && ParseInt(node.attrib["cost"]) == Some(n) ==> PlainCost(node) == n
    ensures Attr(node, "cost") == Some(IntToString(n)) ==> PlainCost(node) == n
    ensures "cost" in node.attrib && ParseInt(node.attrib["cost"]) == None ==> PlainCost(node) == 0
  {
    var raw := AttrOr(node, "cost", "0");
    ParseIntOfStrip(raw);
    if "cost" !in node.attrib {
      ParseIntToString(0);
    } else if raw == IntToString(n) {
      ParseIntToString(n);
    }
  }

  /** The search stops at the first variant child present. */
  lemma VariantFirst(node: Element, j: nat)
    requires j < |Variants| && Find(node, Variants[j]).Some?
    requires forall k :: 0 <= k < j ==> Find(node, Variants[k]).None?
    ensures VariantFrom(node, 0) == Some(j)
  {
  }

  /** Without a `<loot>` child, a front icon or any variant child, the deck stays unset. */
  lemma PlainNoVariant(t: Theme, node: Element)
    requires !Present(Attr(node, "front_icon"))
    requires forall k :: 0 <= k < |Variants| ==> Find(node, Variants[k]).None?
    ensures PlainSelection(t, node).deck == None
    ensures PlainSelection(t, node).frontIcon == Attr(node, "front_icon")
    ensures PlainSelection(t, node).cardType == Strip(AttrOr(node, "type", "ability"))
  {
  }

  /**
   * Without a `<loot>` child or a card-level front icon, the first variant
   * child present sets the deck, the front icon (its own attribute, else the
   * deck's front glyph) and, without a `type` attribute, the type.
   */
  lemma PlainBranch(t: Theme, node: Element, j: nat)
    requires !Present(Attr(node, "front_icon"))
    requires j < |Variants| && Find(node, Variants[j]).Some?
    requires forall k :: 0 <= k < j ==> Find(node, Variants[k]).None?
    ensures PlainSelection(t, node).deck == Some(Variants[j])
    ensures PlainSelection(t, node).frontIcon == Or(Attr(Find(node, Variants[j]).value, "front_icon"), Get(t.frontDeckIcons, Variants[j]))
    ensures PlainSelection(t, node).cardType == (if "type" in node.attrib then Strip(node.attrib["type"]) else Variants[j])
  {
    VariantFirst(node, j);
  }
}
