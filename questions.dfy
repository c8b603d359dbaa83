/**
 * The question bank (learning/questions.py): normalisation of the raw
 * question sets into entries with generated ids, and the listing, lookup and
 * search helpers over the built bank. The literal RAW_QUESTION_SETS are
 * abstracted: they are any sequence of (category, raw items) pairs, in
 * dictionary order.
 */
module Questions {
  import opened Wrappers
  import opened Text
  import opened Personas

  // ---------------------------------------------------------------
  // raw input
  // ---------------------------------------------------------------

  /** A persona entry of a raw item: a dict with optional fields, or some other value. */
  datatype RawBlock = NotADict | Fields(message: Option<string>, actionStep: Option<string>, why: Option<string>)

  /** The "tags" field of a raw item: a list, or one bare string. */
  datatype RawTags = TagList(items: seq<string>) | TagString(tag: string)

  /** A raw question dict; an absent or None string field is None, absent tags an empty list. */
  datatype RawItem = RawItem(question: Option<string>, persona: map<string, RawBlock>, tags: RawTags, notes: Option<string>)

  /** RAW_QUESTION_SETS: category code to its items, in dictionary order. */
  type RawSets = seq<(string, seq<RawItem>)>

  predicate DistinctCategories(raw: RawSets) {
    forall a, b :: 0 <= a < b < |raw| ==> raw[a].0 != raw[b].0
  }

  // ---------------------------------------------------------------
  // normalised bank entries
  // ---------------------------------------------------------------

  datatype PersonaBlock = PersonaBlock(message: string, actionStep: string, why: string)

  datatype Entry = Entry(
    id: string,
    category: string,
    question: string,
    persona: map<string, PersonaBlock>,
    tags: seq<string>,
    notes: string)

  const MESSAGE_PENDING := "(Message pending.)"
  const ACTION_PENDING := "(Action step pending.)"
  const WHY_PENDING := "(Rationale pending.)"

  predicate BlockComplete(b: PersonaBlock) {
    b.message != "" && b.actionStep != "" && b.why != ""
  }

  predicate HasPersonas(e: Entry) {
    forall n :: n in PERSONAS ==> n in e.persona
  }

  predicate HasAllPersonas(bank: seq<Entry>) {
    forall e :: e in bank ==> HasPersonas(e)
  }

  /** The persona dict used for `persona`: the raw one if it is a dict, else an empty one. */
  function BlockOf(p: map<string, RawBlock>, persona: string): (b: RawBlock)
    ensures b.Fields?
    ensures persona in p && p[persona].Fields? ==> b == p[persona]
    ensures !(persona in p && p[persona].Fields?) ==> b == Fields(None, None, None)
  {
    if persona in p && p[persona].Fields? then p[persona] else Fields(None, None, None)
  }

  /** `_clean_text(value) or placeholder`. */
  function CleanOr(raw: Option<string>, placeholder: string): (r: string)
    requires placeholder != ""
    ensures r != ""
    ensures CleanOptional(raw) != "" ==> r == CleanOptional(raw)
    ensures CleanOptional(raw) == "" ==> r == placeholder
  {
    var c := CleanOptional(raw);
    if c != "" then c else placeholder
  }

  function FilledBlock(p: map<string, RawBlock>, persona: string): (b: PersonaBlock)
    ensures BlockComplete(b)
  {
    var raw := BlockOf(p, persona);
    PersonaBlock(
      CleanOr(raw.message, MESSAGE_PENDING),
      CleanOr(raw.actionStep, ACTION_PENDING),
      CleanOr(raw.why, WHY_PENDING))
  }

  /** What `_ensure_persona_block(p)` returns. */
  function PersonaBlocks(p: map<string, RawBlock>): (r: map<string, PersonaBlock>)
    ensures forall n :: n in r <==> n in PERSONAS
    ensures forall n :: n in r ==> BlockComplete(r[n]) && r[n] == FilledBlock(p, n)
  {
    map n | n in PERSONAS :: FilledBlock(p, n)
  }

  /** `_ensure_persona_block`: fills one block per persona, in PERSONAS order. */
  method EnsurePersonaBlock(p: map<string, RawBlock>) returns (out: map<string, PersonaBlock>)
    ensures out == PersonaBlocks(p)
  {
    out := map[];
    for k := 0 to |PERSONAS|
      invariant forall n :: n in out <==> n in PERSONAS[..k]
      invariant forall n :: n in out ==> out[n] == FilledBlock(p, n)
    {
      var persona := PERSONAS[k];
      var block := BlockOf(p, persona);
      var filled := PersonaBlock(
        CleanOr(block.message, MESSAGE_PENDING),
        CleanOr(block.actionStep, ACTION_PENDING),
        CleanOr(block.why, WHY_PENDING));
      assert filled == FilledBlock(p, persona);
      assert PERSONAS[..k + 1] == PERSONAS[..k] + [persona];
      out := out[persona := filled];
    }
    assert PERSONAS[..|PERSONAS|] == PERSONAS;
    var spec := PersonaBlocks(p);
    assert forall n :: n in out <==> n in spec;
    assert forall n :: n in out ==> out[n] == spec[n];
  }

  predicate IsNormalTag(t: string) {
    t != "" && NoOuterSpace(t) && Lower(t) == t
  }

  /** Each tag stripped and lower-cased, in order; tags that are blank once stripped are dropped. */
  function KeepTags(ts: seq<string>): seq<string> {
    if ts == [] then []
    else (if Strip(ts[0]) != "" then [Lower(Strip(ts[0]))] else []) + KeepTags(ts[1..])
  }

  /** Kept tags are trimmed, lower-case and non-empty: one for each non-blank input tag. */
  lemma {:induction false} KeepTagsSpec(ts: seq<string>)
    ensures |KeepTags(ts)| <= |ts|
    ensures forall t :: t in KeepTags(ts) ==> IsNormalTag(t)
    ensures forall x :: x in ts && Strip(x) != "" ==> Lower(Strip(x)) in KeepTags(ts)
    ensures forall t :: t in KeepTags(ts) ==> exists x :: x in ts && t == Lower(Strip(x))
  {
    if ts != [] {
      var x := ts[0];
      KeepTagsSpec(ts[1..]);
      LowerKeepsSpaces(Strip(x));
      LowerIdempotent(Strip(x));
      assert forall y :: y in ts[1..] ==> y in ts;
      assert forall y :: y in ts ==> y == x || y in ts[1..];
    }
  }

  /** A bare string becomes a one-element list before filtering. */
  function NormalizeTags(t: RawTags): seq<string> {
    match t
    case TagString(s) => KeepTags([s])
    case TagList(items) => KeepTags(items)
  }

  lemma NormalizeTagsSpec(t: RawTags)
    ensures forall x :: x in NormalizeTags(t) ==> IsNormalTag(x)
    ensures t.TagList? ==> NormalizeTags(t) == KeepTags(t.items)
    ensures t.TagString? && Strip(t.tag) == "" ==> NormalizeTags(t) == []
    ensures t.TagString? && Strip(t.tag) != "" ==> NormalizeTags(t) == [Lower(Strip(t.tag))]
  {
    match t
    case TagString(s) =>
      KeepTagsSpec([s]);
      assert [s][1..] == [];
    case TagList(items) =>
      KeepTagsSpec(items);
  }

  // ---------------------------------------------------------------
  // ids
  // ---------------------------------------------------------------

  /** The category, a dash, and the index written with at least two digits. */
  function IdOf(category: string, index: nat): string {
    category + "-" + Pad2(index)
  }

  lemma DigitAfterDash(c: string, d: string, j: int)
    requires forall i :: 0 <= i < |d| ==> IsDigitChar(d[i])
    requires |c| < j < |c| + 1 + |d|
    ensures IsDigitChar((c + "-" + d)[j])
  {
    assert (c + "-" + d)[j] == d[j - |c| - 1];
  }

  /** Different (category, index) pairs never give the same id: the digits hold no '-'. */
  lemma IdInjective(c1: string, i1: nat, c2: string, i2: nat)
    requires IdOf(c1, i1) == IdOf(c2, i2)
    ensures c1 == c2 && i1 == i2
  {
    var d1, d2 := Pad2(i1), Pad2(i2);
    var s := IdOf(c1, i1);
    assert s == c1 + "-" + d1 && s == c2 + "-" + d2;
    if |d1| < |d2| {
      DigitAfterDash(c2, d2, |c1|);
      assert false;
    } else if |d2| < |d1| {
      DigitAfterDash(c1, d1, |c2|);
      assert false;
    }
    assert d1 == s[|s| - |d1|..] == d2;
    assert c1 == s[..|c1|] == c2;
    Pad2Injective(i1, i2);
  }

  // ---------------------------------------------------------------
  // build_question_bank
  // ---------------------------------------------------------------

  function NormalizeItem(category: string, index: nat, item: RawItem): Entry {
    Entry(
      IdOf(category, index),
      category,
      CleanOptional(item.question),
      PersonaBlocks(item.persona),
      NormalizeTags(item.tags),
      CleanOptional(item.notes))
  }

  /**
   * How an item becomes an entry, from its category and 1-based index. The
   * layout of the bank does not depend on it beyond the id and category.
   */
  type Normalizer = (string, nat, RawItem) -> Entry

  /** The id and category of an entry come from its position alone. */
  ghost predicate Positional(norm: Normalizer) {
    forall c: string, n: nat, item: RawItem :: norm(c, n, item).id == IdOf(c, n) && norm(c, n, item).category == c
  }

  lemma NormalizeItemIsPositional()
    ensures Positional(NormalizeItem)
  {
  }

  /** The entries of one category, numbered from 1 in encounter order. */
  function Numbered(category: string, items: seq<RawItem>, norm: Normalizer): (r: seq<Entry>)
    ensures |r| == |items|
  {
    seq(|items|, i requires 0 <= i < |items| => norm(category, i + 1, items[i]))
  }

  /** Categories in order, items in order within each. */
  function Layout(raw: RawSets, norm: Normalizer): seq<Entry> {
    if raw == [] then []
    else
      var last := raw[|raw| - 1];
      Layout(raw[..|raw| - 1], norm) + Numbered(last.0, last.1, norm)
  }

  function CategoryEntries(category: string, items: seq<RawItem>): seq<Entry> {
    Numbered(category, items, NormalizeItem)
  }

  /** The bank `build_question_bank` returns. */
  function BankOf(raw: RawSets): seq<Entry> {
    Layout(raw, NormalizeItem)
  }

  function TotalItems(raw: RawSets): nat {
    if raw == [] then 0 else TotalItems(raw[..|raw| - 1]) + |raw[|raw| - 1].1|
  }

  method BuildQuestionBank(raw: RawSets) returns (bank: seq<Entry>)
    ensures bank == BankOf(raw)
  {
    bank := [];
    for c := 0 to |raw|
      invariant bank == BankOf(raw[..c])
    {
      bank := AppendCategory(bank, raw[c].0, raw[c].1);
      assert raw[..c + 1][..c] == raw[..c];
    }
    assert raw[..|raw|] == raw;
  }

  /** The inner loop of build_question_bank: one category's items, numbered from 1. */
  method AppendCategory(bank: seq<Entry>, category: string, items: seq<RawItem>) returns (out: seq<Entry>)
    ensures out == bank + CategoryEntries(category, items)
  {
    ghost var all := CategoryEntries(category, items);
    var entries: seq<Entry> := [];
    for i := 0 to |items|
      invariant entries == all[..i]
    {
      var entry := NormalizeQuestion(category, i + 1, items[i]);
      assert entry == all[i];
      assert all[..i + 1] == all[..i] + [all[i]];
      entries := entries + [entry];
    }
    assert all[..|items|] == all;
    out := bank + entries;
  }

  /** The body of that loop: one raw item as a bank entry. */
  method NormalizeQuestion(category: string, index: nat, item: RawItem) returns (entry: Entry)
    ensures entry == NormalizeItem(category, index, item)
  {
    var qid := IdOf(category, index);
    var question := CleanOptional(item.question);
    var persona := EnsurePersonaBlock(item.persona);
    var tags := NormalizeTags(item.tags);
    entry := Entry(qid, category, question, persona, tags, CleanOptional(item.notes));
  }

  lemma {:induction false} LayoutLength(raw: RawSets, norm: Normalizer)
    ensures |Layout(raw, norm)| == TotalItems(raw)
  {
    if raw != [] {
      LayoutLength(raw[..|raw| - 1], norm);
    }
  }

  lemma {:induction false} LayoutAt(raw: RawSets, norm: Normalizer, c: nat, i: nat)
    requires c < |raw| && i < |raw[c].1|
    ensures TotalItems(raw[..c]) + i < |Layout(raw, norm)|
    ensures Layout(raw, norm)[TotalItems(raw[..c]) + i] == norm(raw[c].0, i + 1, raw[c].1[i])
  {
    var init := raw[..|raw| - 1];
    LayoutLength(init, norm);
    if c == |raw| - 1 {
      assert raw[..c] == init;
    } else {
      assert init[..c] == raw[..c];
      LayoutAt(init, norm, c, i);
    }
  }

  ghost predicate FromQuestionSets(raw: RawSets, e: Entry) {
    exists k :: 0 <= k < |raw| && raw[k].0 == e.category
  }

  ghost predicate NumberedId(e: Entry) {
    exists n: nat :: e.id == IdOf(e.category, n)
  }

  lemma {:induction false} LayoutShape(raw: RawSets, norm: Normalizer)
    requires Positional(norm)
    ensures forall e :: e in Layout(raw, norm) ==> FromQuestionSets(raw, e) && NumberedId(e)
  {
    if raw != [] {
      var init, last := raw[..|raw| - 1], raw[|raw| - 1];
      LayoutShape(init, norm);
      forall e | e in Layout(raw, norm) ensures FromQuestionSets(raw, e) && NumberedId(e) {
        if e in Layout(init, norm) {
          var k :| 0 <= k < |init| && init[k].0 == e.category;
          assert raw[k].0 == e.category;
        } else {
          var t :| 0 <= t < |last.1| && Numbered(last.0, last.1, norm)[t] == e;
          assert e.id == IdOf(e.category, t + 1);
          assert raw[|raw| - 1].0 == e.category;
        }
      }
    }
  }

  /** Within one category the ids are distinct. */
  lemma {:induction false} NumberedIdsUnique(category: string, items: seq<RawItem>, norm: Normalizer)
    requires Positional(norm)
    ensures forall a, b :: 0 <= a < b < |items| ==> Numbered(category, items, norm)[a].id != Numbered(category, items, norm)[b].id
  {
    var back := Numbered(category, items, norm);
    forall a, b | 0 <= a < b < |items| ensures back[a].id != back[b].id {
      if back[a].id == back[b].id {
        IdInjective(category, a + 1, category, b + 1);
      }
    }
  }

  /** An id from an earlier category never equals one from a new category. */
  lemma {:induction false} EarlierIdsDiffer(init: RawSets, category: string, items: seq<RawItem>, norm: Normalizer)
    requires Positional(norm)
    requires forall k :: 0 <= k < |init| ==> init[k].0 != category
    ensures forall e, t :: e in Layout(init, norm) && 0 <= t < |items| ==> e.id != Numbered(category, items, norm)[t].id
  {
    LayoutShape(init, norm);
    forall e, t | e in Layout(init, norm) && 0 <= t < |items| ensures e.id != Numbered(category, items, norm)[t].id {
      var f := Numbered(category, items, norm)[t];
      var k :| 0 <= k < |init| && init[k].0 == e.category;
      var n: nat :| e.id == IdOf(e.category, n);
      if e.id == f.id {
        IdInjective(e.category, n, category, t + 1);
      }
    }
  }

  lemma {:induction false} LayoutIdsUnique(raw: RawSets, norm: Normalizer)
    requires DistinctCategories(raw) && Positional(norm)
    ensures forall a, b :: 0 <= a < b < |Layout(raw, norm)| ==> Layout(raw, norm)[a].id != Layout(raw, norm)[b].id
  {
    if raw != [] {
      var init, last := raw[..|raw| - 1], raw[|raw| - 1];
      assert DistinctCategories(init);
      LayoutIdsUnique(init, norm);
      NumberedIdsUnique(last.0, last.1, norm);
      EarlierIdsDiffer(init, last.0, last.1, norm);
      var front, back := Layout(init, norm), Numbered(last.0, last.1, norm);
      var bank := Layout(raw, norm);
      assert bank == front + back;
      forall a, b | 0 <= a < b < |bank| ensures bank[a].id != bank[b].id {
        if b < |front| {
          assert bank[a] == front[a] && bank[b] == front[b];
        } else if a >= |front| {
          assert bank[a] == back[a - |front|] && bank[b] == back[b - |front|];
        } else {
          assert bank[a] == front[a] && front[a] in front;
          assert bank[b] == back[b - |front|];
        }
      }
    }
  }

  /** With distinct categories, no earlier entry carries the last category. */
  lemma {:induction false} LastCategoryIsNew(raw: RawSets, norm: Normalizer)
    requires DistinctCategories(raw) && Positional(norm) && raw != []
    ensures forall e :: e in Layout(raw[..|raw| - 1], norm) ==> e.category != raw[|raw| - 1].0
  {
    var init := raw[..|raw| - 1];
    LayoutShape(init, norm);
    forall e | e in Layout(init, norm) ensures e.category != raw[|raw| - 1].0 {
      var k :| 0 <= k < |init| && init[k].0 == e.category;
      assert raw[k].0 == e.category;
    }
  }

  lemma {:induction false} LayoutListing(raw: RawSets, norm: Normalizer, c: nat)
    requires DistinctCategories(raw) && Positional(norm) && c < |raw|
    ensures FilterCategory(Layout(raw, norm), raw[c].0) == Numbered(raw[c].0, raw[c].1, norm)
  {
    var init, last := raw[..|raw| - 1], raw[|raw| - 1];
    var cat := raw[c].0;
    var front, back := Layout(init, norm), Numbered(last.0, last.1, norm);
    assert Layout(raw, norm) == front + back;
    FilterCategoryAppend(front, back, cat);
    if c == |raw| - 1 {
      LastCategoryIsNew(raw, norm);
      FilterCategoryNone(front, cat);
      FilterCategoryAll(back, cat);
    } else {
      assert init[c] == raw[c];
      LayoutListing(init, norm, c);
      FilterCategoryNone(back, cat);
    }
  }

  lemma BankLength(raw: RawSets)
    ensures |BankOf(raw)| == TotalItems(raw)
  {
    LayoutLength(raw, NormalizeItem);
  }

  /** Item i of category c sits at position TotalItems(raw[..c]) + i, with index i + 1. */
  lemma BankLayout(raw: RawSets, c: nat, i: nat)
    requires c < |raw| && i < |raw[c].1|
    ensures TotalItems(raw[..c]) + i < |BankOf(raw)|
    ensures BankOf(raw)[TotalItems(raw[..c]) + i] == NormalizeItem(raw[c].0, i + 1, raw[c].1[i])
  {
    LayoutAt(raw, NormalizeItem, c, i);
  }

  /** Entry e is item i of question set k, normalised with its 1-based index. */
  ghost predicate NormalizedFrom(raw: RawSets, norm: Normalizer, e: Entry, k: int, i: int) {
    0 <= k < |raw| && 0 <= i < |raw[k].1| && e == norm(raw[k].0, i + 1, raw[k].1[i])
  }

  lemma {:induction false} LayoutOrigin(raw: RawSets, norm: Normalizer)
    ensures forall e :: e in Layout(raw, norm) ==> exists k, i :: NormalizedFrom(raw, norm, e, k, i)
    decreases |raw|
  {
    if raw != [] {
      var init, last := raw[..|raw| - 1], raw[|raw| - 1];
      LayoutOrigin(init, norm);
      forall e | e in Layout(raw, norm) ensures exists k, i :: NormalizedFrom(raw, norm, e, k, i) {
        if e in Layout(init, norm) {
          var k, i :| NormalizedFrom(init, norm, e, k, i);
          assert raw[k] == init[k];
          assert NormalizedFrom(raw, norm, e, k, i);
        } else {
          var t :| 0 <= t < |last.1| && Numbered(last.0, last.1, norm)[t] == e;
          assert NormalizedFrom(raw, norm, e, |raw| - 1, t);
        }
      }
    }
  }

  /**
   * Every entry is the normalised form of one item of the question sets: its
   * category is that set's, and its id is the category, a dash and the item's
   * 1-based position within the set.
   */
  lemma EntryShape(raw: RawSets)
    ensures forall e :: e in BankOf(raw) ==> exists k, i :: NormalizedFrom(raw, NormalizeItem, e, k, i)
    ensures forall e :: e in BankOf(raw) ==> exists k, i :: NumberedIn(raw, e, k, i)
  {
    LayoutOrigin(raw, NormalizeItem);
    forall e | e in BankOf(raw) ensures exists k, i :: NumberedIn(raw, e, k, i) {
      var k, i :| NormalizedFrom(raw, NormalizeItem, e, k, i);
      assert NumberedIn(raw, e, k, i);
    }
  }

  /** Entry e carries the category of question set k and the id of its item i. */
  predicate NumberedIn(raw: RawSets, e: Entry, k: int, i: int) {
    0 <= k < |raw| && 0 <= i < |raw[k].1| && e.category == raw[k].0 && e.id == IdOf(raw[k].0, i + 1)
  }

  /** Every entry the layout produces carries a block for each persona. */
  lemma {:induction false} LayoutHasAllPersonas(raw: RawSets)
    ensures HasAllPersonas(Layout(raw, NormalizeItem))
    decreases |raw|
  {
    if raw != [] {
      var init, last := raw[..|raw| - 1], raw[|raw| - 1];
      LayoutHasAllPersonas(init);
      var front, back := Layout(init, NormalizeItem), Numbered(last.0, last.1, NormalizeItem);
      forall t | 0 <= t < |back| ensures HasPersonas(back[t]) {
        assert back[t].persona == PersonaBlocks(last.1[t].persona);
      }
      assert Layout(raw, NormalizeItem) == front + back;
      forall e | e in front + back ensures HasPersonas(e) {
        if e !in front {
          var t :| 0 <= t < |back| && back[t] == e;
        }
      }
    }
  }

  /** The built bank meets the precondition of the search helpers. */
  lemma BankHasAllPersonas(raw: RawSets)
    ensures HasAllPersonas(BankOf(raw))
  {
    LayoutHasAllPersonas(raw);
  }

  /** No two entries of the bank share an id. */
  lemma IdsUnique(raw: RawSets)
    requires DistinctCategories(raw)
    ensures forall a, b :: 0 <= a < b < |BankOf(raw)| ==> BankOf(raw)[a].id != BankOf(raw)[b].id
  {
    NormalizeItemIsPositional();
    LayoutIdsUnique(raw, NormalizeItem);
  }

  // ---------------------------------------------------------------
  // listing
  // ---------------------------------------------------------------

  /** The bank entries of one category, in bank order. */
  function FilterCategory(bank: seq<Entry>, cat: string): (r: seq<Entry>)
    ensures |r| <= |bank|
  {
    if bank == [] then []
    else (if bank[0].category == cat then [bank[0]] else []) + FilterCategory(bank[1..], cat)
  }

  lemma {:induction false} FilterCategoryMembers(bank: seq<Entry>, cat: string)
    ensures forall e :: e in FilterCategory(bank, cat) <==> e in bank && e.category == cat
  {
    if bank != [] {
      FilterCategoryMembers(bank[1..], cat);
      assert forall e :: e in bank <==> e == bank[0] || e in bank[1..];
    }
  }

  lemma {:induction false} FilterCategoryAppend(a: seq<Entry>, b: seq<Entry>, cat: string)
    ensures FilterCategory(a + b, cat) == FilterCategory(a, cat) + FilterCategory(b, cat)
  {
    if a != [] {
      assert (a + b)[1..] == a[1..] + b;
      FilterCategoryAppend(a[1..], b, cat);
    } else {
      assert a + b == b;
    }
  }

  lemma {:induction false} FilterCategoryAll(bank: seq<Entry>, cat: string)
    requires forall e :: e in bank ==> e.category == cat
    ensures FilterCategory(bank, cat) == bank
  {
    if bank != [] {
      assert bank[0] in bank;
      FilterCategoryAll(bank[1..], cat);
    }
  }

  lemma {:induction false} FilterCategoryNone(bank: seq<Entry>, cat: string)
    requires forall e :: e in bank ==> e.category != cat
    ensures FilterCategory(bank, cat) == []
  {
    if bank != [] {
      assert bank[0] in bank;
      FilterCategoryNone(bank[1..], cat);
    }
  }

  /** `list_questions(category)`: `not category` (None or "") lists everything. */
  function ListQuestions(bank: seq<Entry>, category: Option<string>): (r: seq<Entry>)
    ensures category.None? || category.value == "" ==> r == bank
    ensures category.Some? && category.value != "" ==>
              forall e :: e in r <==> e in bank && e.category == Upper(Strip(category.value))
    ensures forall e :: e in r ==> e in bank
  {
    if category.None? || category.value == "" then bank
    else
      FilterCategoryMembers(bank, Upper(Strip(category.value)));
      FilterCategory(bank, Upper(Strip(category.value)))
  }

  /** `valid_ids(category)`. */
  function ValidIds(bank: seq<Entry>, category: Option<string>): (r: seq<string>)
    ensures |r| == |ListQuestions(bank, category)|
  {
    var listed := ListQuestions(bank, category);
    seq(|listed|, i requires 0 <= i < |listed| => listed[i].id)
  }

  /** A category code as the question sets use them: non-empty, upper-case ASCII letters. */
  predicate IsCategoryCode(c: string) {
    |c| > 0 && forall i :: 0 <= i < |c| ==> 'A' <= c[i] <= 'Z'
  }

  predicate WellFormedQuestionSets(raw: RawSets) {
    DistinctCategories(raw) && forall k :: 0 <= k < |raw| ==> IsCategoryCode(raw[k].0)
  }

  /** Listing a category of the question sets yields exactly its own entries, in item order. */
  lemma CategoryListing(raw: RawSets, c: nat)
    requires DistinctCategories(raw) && c < |raw|
    ensures FilterCategory(BankOf(raw), raw[c].0) == CategoryEntries(raw[c].0, raw[c].1)
  {
    NormalizeItemIsPositional();
    LayoutListing(raw, NormalizeItem, c);
  }

  lemma CategoryCodeIsNormal(c: string)
    requires IsCategoryCode(c)
    ensures Strip(c) == c && Upper(c) == c
  {
    assert NoOuterSpace(c);
    StripOfStripped(c);
  }

  /** valid_ids(cat) for a category of the question sets is cat-01, cat-02, ... in order. */
  lemma ValidIdsOfCategory(raw: RawSets, c: nat)
    requires WellFormedQuestionSets(raw) && c < |raw|
    ensures ValidIds(BankOf(raw), Some(raw[c].0)) == seq(|raw[c].1|, i requires 0 <= i < |raw[c].1| => IdOf(raw[c].0, i + 1))
  {
    CategoryCodeIsNormal(raw[c].0);
    CategoryListing(raw, c);
  }

  /** The distinct categories of the bank in ascending order, by insertion into a sorted list. */
  predicate StrictlySorted(s: seq<string>) {
    forall i, j :: 0 <= i < j < |s| ==> LexLess(s[i], s[j])
  }

  function InsertSorted(x: string, s: seq<string>): (r: seq<string>)
    requires StrictlySorted(s)
    ensures StrictlySorted(r)
    ensures forall y :: y in r <==> y == x || y in s
  {
    if s == [] then [x]
    else if x == s[0] then s
    else if LexLess(x, s[0]) then
      assert forall j :: 0 <= j < |s| ==> LexLess(x, s[j]) by {
        forall j | 0 <= j < |s| ensures LexLess(x, s[j]) {
          if j > 0 { LexLessTransitive(x, s[0], s[j]); }
        }
      }
      [x] + s
    else
      LexLessTotal(x, s[0]);
      var rest := InsertSorted(x, s[1..]);
      assert forall y :: y in rest ==> LexLess(s[0], y);
      [s[0]] + rest
  }

  function AllCategories(bank: seq<Entry>): (r: seq<string>)
    ensures StrictlySorted(r)
    ensures forall c :: c in r <==> exists e :: e in bank && e.category == c
  {
    if bank == [] then []
    else
      var rest := AllCategories(bank[1..]);
      assert forall e :: e in bank[1..] ==> e in bank;
      assert forall e :: e in bank ==> e == bank[0] || e in bank[1..];
      InsertSorted(bank[0].category, rest)
  }

  lemma SortedDistinct(s: seq<string>)
    requires StrictlySorted(s)
    ensures forall i, j :: 0 <= i < j < |s| ==> s[i] != s[j]
  {
    forall i, j | 0 <= i < j < |s| ensures s[i] != s[j] {
      if s[i] == s[j] { LexLessIrreflexive(s[i]); }
    }
  }

  // ---------------------------------------------------------------
  // get_question_by_id
  // ---------------------------------------------------------------

  /** The entry's id, upper-cased, equals the normalised key. */
  predicate IdMatches(e: Entry, key: string) {
    Upper(e.id) == key
  }

  /** The requested id (a missing one counts as empty), stripped and upper-cased. */
  function LookupKey(qid: Option<string>): string {
    Upper(Strip(qid.GetOr("")))
  }

  method GetQuestionById(bank: seq<Entry>, qid: Option<string>) returns (r: Option<Entry>)
    ensures r.None? <==> forall i :: 0 <= i < |bank| ==> !IdMatches(bank[i], LookupKey(qid))
    ensures r.Some? ==> exists i :: 0 <= i < |bank| && bank[i] == r.value && IdMatches(bank[i], LookupKey(qid))
                                   && forall j :: 0 <= j < i ==> !IdMatches(bank[j], LookupKey(qid))
  {
    var key := Upper(Strip(qid.GetOr("")));
    for i := 0 to |bank|
      invariant forall j :: 0 <= j < i ==> !IdMatches(bank[j], key)
    {
      if Upper(bank[i].id) == key {
        return Some(bank[i]);
      }
    }
    return None;
  }

  lemma UpperOfId(c: string, n: nat)
    requires IsCategoryCode(c)
    ensures Upper(IdOf(c, n)) == IdOf(c, n)
    ensures Strip(IdOf(c, n)) == IdOf(c, n)
  {
    var s := IdOf(c, n);
    var d := Pad2(n);
    assert s == c + "-" + d;
    assert forall i :: 0 <= i < |c| ==> s[i] == c[i];
    assert forall i :: |c| < i < |s| ==> s[i] == d[i - |c| - 1];
    assert NoOuterSpace(s);
    StripOfStripped(s);
  }

  /** Looking up an entry's own id, in any letter case, matches that entry and no other. */
  lemma IdLookupFindsEntry(raw: RawSets, a: nat, qid: string)
    requires WellFormedQuestionSets(raw) && a < |BankOf(raw)|
    requires Upper(Strip(qid)) == BankOf(raw)[a].id
    ensures forall b :: 0 <= b < |BankOf(raw)| ==> (IdMatches(BankOf(raw)[b], LookupKey(Some(qid))) <==> b == a)
  {
    var bank := BankOf(raw);
    IdsUnique(raw);
    EntryShape(raw);
    forall b | 0 <= b < |bank| ensures IdMatches(bank[b], LookupKey(Some(qid))) <==> b == a {
      var e := bank[b];
      assert e in bank;
      var k :| 0 <= k < |raw| && raw[k].0 == e.category;
      var n: nat :| e.id == IdOf(e.category, n);
      UpperOfId(e.category, n);
    }
  }

  // ---------------------------------------------------------------
  // search_questions
  // ---------------------------------------------------------------

  /** Characters of the token pattern [a-z0-9']. */
  predicate IsTokenChar(c: char) {
    'a' <= c <= 'z' || '0' <= c <= '9' || c == '\''
  }

  /** `set(re.findall(r"[a-z0-9']+", s))`. */
  function TokenSet(s: string): set<string> {
    set t | t in Runs(s, IsTokenChar)
  }

  function SharedTokens(query: string, joined: string): set<string> {
    TokenSet(query) * TokenSet(joined)
  }

  const SUBSTRING_SCORE := 50
  const TOKEN_SCORE := 5

  /** 50 for a substring hit, else 5 per shared token. */
  function Score(query: string, joined: string): (r: int)
    ensures r >= 0 && r % TOKEN_SCORE == 0
    ensures r > 0 <==> Contains(joined, query) || SharedTokens(query, joined) != {}
    ensures Contains(joined, query) ==> r == SUBSTRING_SCORE
    ensures !Contains(joined, query) ==> r == TOKEN_SCORE * |SharedTokens(query, joined)|
  {
    if Contains(joined, query) then SUBSTRING_SCORE
    else TOKEN_SCORE * |SharedTokens(query, joined)|
  }

  /** The token rule can outrank the substring rule: 11 shared tokens score 55 > 50. */
  lemma TokenOverlapCanOutrankSubstring(query: string, j1: string, j2: string)
    requires Contains(j1, query)
    requires !Contains(j2, query) && |SharedTokens(query, j2)| >= 11
    ensures Score(query, j2) > Score(query, j1)
  {
  }

  /** message, action_step and why of each persona in ps, in that order. */
  function PersonaTexts(m: map<string, PersonaBlock>, ps: seq<string>): (r: seq<string>)
    requires forall p :: p in ps ==> p in m
    ensures |r| == 3 * |ps|
  {
    if ps == [] then []
    else
      var b := m[ps[|ps| - 1]];
      PersonaTexts(m, ps[..|ps| - 1]) + [b.message, b.actionStep, b.why]
  }

  /** The `hay` list: question, tags, then the four persona blocks. */
  function HayParts(e: Entry): seq<string>
    requires HasPersonas(e)
  {
    [e.question] + e.tags + PersonaTexts(e.persona, PERSONAS)
  }

  /** The lower-cased, space-joined text search_questions looks in. */
  function Haystack(e: Entry): string
    requires HasPersonas(e)
  {
    Lower(JoinSpace(HayParts(e)))
  }

  /** The loop that builds `hay` for one entry. */
  method CollectHay(q: Entry) returns (hay: seq<string>)
    requires HasPersonas(q)
    ensures hay == HayParts(q)
  {
    hay := [q.question] + q.tags;
    for k := 0 to |PERSONAS|
      invariant hay == [q.question] + q.tags + PersonaTexts(q.persona, PERSONAS[..k])
    {
      var block := q.persona[PERSONAS[k]];
      assert PERSONAS[..k + 1][..k] == PERSONAS[..k];
      hay := hay + [block.message, block.actionStep, block.why];
    }
    assert PERSONAS[..|PERSONAS|] == PERSONAS;
  }

  /** The score of one entry against the cleaned, lower-cased query. */
  method ScoreEntry(q: Entry, query: string) returns (score: int)
    requires HasPersonas(q)
    ensures score == Score(query, Haystack(q))
  {
    var hay := CollectHay(q);
    var joined := Lower(JoinSpace(hay));
    if Contains(joined, query) {
      score := SUBSTRING_SCORE;
    } else {
      score := TOKEN_SCORE * |TokenSet(query) * TokenSet(joined)|;
    }
  }

  datatype Hit = Hit(score: int, entry: Entry)

  /** The (score, q) pairs with a positive score, in pool order. */
  function HitsOf(pool: seq<Entry>, query: string): seq<Hit>
    requires HasAllPersonas(pool)
  {
    if pool == [] then []
    else
      var e := pool[|pool| - 1];
      var s := Score(query, Haystack(e));
      HitsOf(pool[..|pool| - 1], query) + (if s > 0 then [Hit(s, e)] else [])
  }

  /** A hit is an entry of the pool with its positive score, and every scoring entry is a hit. */
  lemma {:induction false} HitsOfSpec(pool: seq<Entry>, query: string)
    requires HasAllPersonas(pool)
    ensures forall h :: h in HitsOf(pool, query) ==> h.score > 0 && h.entry in pool && h.score == Score(query, Haystack(h.entry))
    ensures forall e :: e in pool && Score(query, Haystack(e)) > 0 ==> Hit(Score(query, Haystack(e)), e) in HitsOf(pool, query)
  {
    if pool != [] {
      var init, e := pool[..|pool| - 1], pool[|pool| - 1];
      assert forall x :: x in init ==> x in pool;
      HitsOfSpec(init, query);
      assert forall x :: x in pool ==> x in init || x == e;
    }
  }

  predicate NonIncreasing(h: seq<Hit>) {
    forall i, j :: 0 <= i < j < |h| ==> h[i].score >= h[j].score
  }

  /** The hits with score v, in their order. */
  function WithScore(h: seq<Hit>, v: int): seq<Hit> {
    if h == [] then [] else (if h[0].score == v then [h[0]] else []) + WithScore(h[1..], v)
  }

  /** Inserts x before the first element scored strictly below it. */
  function InsertHit(x: Hit, s: seq<Hit>): seq<Hit> {
    if s == [] || x.score >= s[0].score then [x] + s
    else [s[0]] + InsertHit(x, s[1..])
  }

  /** Python's stable `hits.sort(key=lambda t: t[0], reverse=True)`. */
  function StableSortByScore(h: seq<Hit>): seq<Hit> {
    if h == [] then [] else InsertHit(h[0], StableSortByScore(h[1..]))
  }

  lemma {:induction false} InsertHitPermutes(x: Hit, s: seq<Hit>)
    ensures multiset(InsertHit(x, s)) == multiset([x] + s)
  {
    if s != [] && x.score < s[0].score {
      InsertHitPermutes(x, s[1..]);
      assert s == [s[0]] + s[1..];
    }
  }

  lemma {:induction false} SortPermutes(h: seq<Hit>)
    ensures multiset(StableSortByScore(h)) == multiset(h)
  {
    if h != [] {
      SortPermutes(h[1..]);
      InsertHitPermutes(h[0], StableSortByScore(h[1..]));
      assert h == [h[0]] + h[1..];
    }
  }

  lemma {:induction false} InsertHitSorted(x: Hit, s: seq<Hit>)
    requires NonIncreasing(s)
    ensures NonIncreasing(InsertHit(x, s))
  {
    if s != [] && x.score < s[0].score {
      var rest := InsertHit(x, s[1..]);
      InsertHitSorted(x, s[1..]);
      InsertHitPermutes(x, s[1..]);
      forall y | y in rest ensures s[0].score >= y.score {
        assert y in multiset(rest);
        assert y in multiset([x] + s[1..]);
        if y != x {
          assert y in s[1..];
        }
      }
    }
  }

  lemma {:induction false} SortIsSorted(h: seq<Hit>)
    ensures NonIncreasing(StableSortByScore(h))
  {
    if h != [] {
      SortIsSorted(h[1..]);
      InsertHitSorted(h[0], StableSortByScore(h[1..]));
    }
  }

  function Only(x: Hit, v: int): seq<Hit> {
    if x.score == v then [x] else []
  }

  lemma WithScoreCons(x: Hit, t: seq<Hit>, v: int)
    ensures WithScore([x] + t, v) == Only(x, v) + WithScore(t, v)
  {
    assert ([x] + t)[1..] == t;
  }

  lemma {:induction false} InsertHitStable(x: Hit, s: seq<Hit>, v: int)
    ensures WithScore(InsertHit(x, s), v) == Only(x, v) + WithScore(s, v)
  {
    if s == [] || x.score >= s[0].score {
      WithScoreCons(x, s, v);
    } else {
      var rest := InsertHit(x, s[1..]);
      InsertHitStable(x, s[1..], v);
      WithScoreCons(s[0], rest, v);
      WithScoreCons(s[0], s[1..], v);
      assert s == [s[0]] + s[1..];
      assert Only(s[0], v) == [] || Only(x, v) == [];
      assert Only(s[0], v) + (Only(x, v) + WithScore(s[1..], v))
          == Only(x, v) + (Only(s[0], v) + WithScore(s[1..], v));
    }
  }

  /** Stability: among hits of one score the sorted order is the original order. */
  lemma {:induction false} SortIsStable(h: seq<Hit>, v: int)
    ensures WithScore(StableSortByScore(h), v) == WithScore(h, v)
  {
    if h != [] {
      SortIsStable(h[1..], v);
      InsertHitStable(h[0], StableSortByScore(h[1..]), v);
      WithScoreCons(h[0], h[1..], v);
      assert h == [h[0]] + h[1..];
    }
  }

  function Take<T>(s: seq<T>, n: int): (r: seq<T>)
    ensures |r| <= |s| && (n >= 0 ==> |r| <= n)
    ensures r == s[..|r|]
  {
    if n <= 0 then [] else if n >= |s| then s else s[..n]
  }

  function EntriesOf(h: seq<Hit>): (r: seq<Entry>)
    ensures |r| == |h| && forall i :: 0 <= i < |h| ==> r[i] == h[i].entry
  {
    seq(|h|, i requires 0 <= i < |h| => h[i].entry)
  }

  function Max1(limit: int): int { if limit > 1 then limit else 1 }

  /** The hits of the listed pool, ranked. */
  function RankedHits(bank: seq<Entry>, query: string, category: Option<string>): seq<Hit>
    requires HasAllPersonas(bank)
  {
    StableSortByScore(HitsOf(ListQuestions(bank, category), query))
  }

  /** What search_questions returns. */
  function SearchResult(bank: seq<Entry>, rawQuery: string, category: Option<string>, limit: int): seq<Entry>
    requires HasAllPersonas(bank)
  {
    var query := Lower(CleanText(rawQuery));
    if query == "" then [] else EntriesOf(Take(RankedHits(bank, query, category), Max1(limit)))
  }

  method SearchQuestions(bank: seq<Entry>, rawQuery: string, category: Option<string>, limit: int)
    returns (r: seq<Entry>)
    requires HasAllPersonas(bank)
    ensures r == SearchResult(bank, rawQuery, category, limit)
    ensures |r| <= Max1(limit)
    ensures Lower(CleanText(rawQuery)) == "" ==> r == []
  {
    var query := Lower(CleanText(rawQuery));
    if query == "" {
      return [];
    }
    var pool := ListQuestions(bank, category);
    var hits := CollectHits(pool, query);
    var sorted := StableSortByScore(hits);
    r := EntriesOf(Take(sorted, Max1(limit)));
  }

  /** The scoring loop of search_questions over the listed pool. */
  method CollectHits(pool: seq<Entry>, query: string) returns (hits: seq<Hit>)
    requires HasAllPersonas(pool)
    ensures hits == HitsOf(pool, query)
  {
    hits := [];
    for i := 0 to |pool|
      invariant hits == HitsOf(pool[..i], query)
    {
      var q := pool[i];
      assert q in pool;
      var score := ScoreEntry(q, query);
      assert pool[..i + 1][..i] == pool[..i];
      if score > 0 {
        hits := hits + [Hit(score, q)];
      }
    }
    assert pool[..|pool|] == pool;
  }

  /** The ranking behind search_questions: positive scores, non-increasing, ties in pool order. */
  lemma SearchRanking(bank: seq<Entry>, query: string, category: Option<string>)
    requires HasAllPersonas(bank)
    ensures var h := RankedHits(bank, query, category);
      && NonIncreasing(h)
      && (forall i :: 0 <= i < |h| ==> h[i].score > 0)
      && multiset(h) == multiset(HitsOf(ListQuestions(bank, category), query))
      && forall v :: WithScore(h, v) == WithScore(HitsOf(ListQuestions(bank, category), query), v)
  {
    var hits := HitsOf(ListQuestions(bank, category), query);
    HitsOfSpec(ListQuestions(bank, category), query);
    SortIsSorted(hits);
    SortPermutes(hits);
    forall v ensures WithScore(StableSortByScore(hits), v) == WithScore(hits, v) {
      SortIsStable(hits, v);
    }
    var h := StableSortByScore(hits);
    forall i | 0 <= i < |h| ensures h[i].score > 0 {
      assert h[i] in multiset(hits);
    }
  }

  /** Each result comes from the ranked hits, in rank order, and at most max(1, limit) of them. */
  lemma SearchResultIsRankPrefix(bank: seq<Entry>, rawQuery: string, category: Option<string>, limit: int)
    requires HasAllPersonas(bank)
    requires Lower(CleanText(rawQuery)) != ""
    ensures var h := RankedHits(bank, Lower(CleanText(rawQuery)), category);
      var r := SearchResult(bank, rawQuery, category, limit);
      && |r| == (if Max1(limit) < |h| then Max1(limit) else |h|)
      && forall i :: 0 <= i < |r| ==> r[i] == h[i].entry
  {
  }
}
