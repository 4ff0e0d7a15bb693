/**
 * Owner-made playlist drafts in managed_state.py: parsing keeps the valid, unambiguous ones and
 * quarantines every other one; serialising writes both back. What makes one draft valid, and how
 * it is encoded, are parameters.
 */
module Quarantine {
  import opened Basics

  /**
   * JSON values and drafts, with the identifiers that either of them shows, and whether a draft by
   * itself passes the catalogue's checks.
   */
  datatype Codec<!Raw(!new), !Draft> = Codec(
    decode: Raw -> Option<Draft>, encode: Draft -> Raw, id: Draft -> string, rawId: Raw -> Option<string>,
    admits: Draft -> bool)
  {
    /** A draft that was decoded passes the checks and survives its own encoding, which shows the draft's id. */
    ghost predicate Lawful() {
      forall raw :: decode(raw).Some? ==>
        var draft := decode(raw).value;
        admits(draft) && decode(encode(draft)) == Some(draft) && rawId(encode(draft)) == Some(id(draft))
    }
  }

  datatype Reason = InvalidDefinition | DuplicateId
  datatype Quarantined<Raw> = Quarantined(sourceIndex: nat, reason: Reason, raw: Raw)
  datatype Document<Raw> = Document(templates: seq<Raw>, quarantined: seq<Quarantined<Raw>>)
  datatype State<Raw, Draft> = State(templates: seq<Draft>, quarantined: seq<Quarantined<Raw>>)
  /** A draft and its position in the document. */
  datatype Placed<Draft> = Placed(index: nat, draft: Draft)

  // ---------------------------------------------------------------- ordering by id

  /** Python's order on strings: by code point, a prefix first. */
  predicate Leq(a: string, b: string) {
    || a == []
    || (b != [] && (a[0] < b[0] || (a[0] == b[0] && Leq(a[1..], b[1..]))))
  }

  lemma {:induction false} LeqTotal(a: string, b: string)
    ensures Leq(a, b) || Leq(b, a)
  {
    if a != [] && b != [] && a[0] == b[0] {
      LeqTotal(a[1..], b[1..]);
    }
  }

  function Insert<Raw(!new), Draft>(codec: Codec<Raw, Draft>, draft: Draft, sorted: seq<Draft>): (inserted: seq<Draft>)
    ensures |inserted| == |sorted| + 1
  {
    if sorted == [] || Leq(codec.id(draft), codec.id(sorted[0])) then [draft] + sorted
    else [sorted[0]] + Insert(codec, draft, sorted[1..])
  }

  /** `sorted(..., key=id)`: stable, as Python's is. */
  function SortById<Raw(!new), Draft>(codec: Codec<Raw, Draft>, drafts: seq<Draft>): (sorted: seq<Draft>)
    ensures |sorted| == |drafts|
  {
    if drafts == [] then [] else Insert(codec, drafts[0], SortById(codec, drafts[1..]))
  }

  ghost predicate Sorted<Raw(!new), Draft>(codec: Codec<Raw, Draft>, drafts: seq<Draft>) {
    forall i :: 0 <= i < |drafts| - 1 ==> Leq(codec.id(drafts[i]), codec.id(drafts[i + 1]))
  }

  lemma {:induction false} InsertKeepsSorted<Raw(!new), Draft>(codec: Codec<Raw, Draft>, draft: Draft,
                                                               sorted: seq<Draft>)
    requires Sorted(codec, sorted)
    ensures Sorted(codec, Insert(codec, draft, sorted))
    ensures sorted != [] ==> Insert(codec, draft, sorted)[0] == draft || Insert(codec, draft, sorted)[0] == sorted[0]
    ensures sorted == [] ==> Insert(codec, draft, sorted) == [draft]
  {
    if sorted != [] && !Leq(codec.id(draft), codec.id(sorted[0])) {
      LeqTotal(codec.id(draft), codec.id(sorted[0]));
      InsertKeepsSorted(codec, draft, sorted[1..]);
      var inserted := Insert(codec, draft, sorted);
      assert inserted[1..] == Insert(codec, draft, sorted[1..]);
      forall i | 0 <= i < |inserted| - 1 ensures Leq(codec.id(inserted[i]), codec.id(inserted[i + 1])) {
        if i > 0 {
          assert inserted[i] == inserted[1..][i - 1] && inserted[i + 1] == inserted[1..][i];
        }
      }
    }
  }

  lemma {:induction false} SortSorts<Raw(!new), Draft>(codec: Codec<Raw, Draft>, drafts: seq<Draft>)
    ensures Sorted(codec, SortById(codec, drafts))
  {
    if drafts != [] {
      SortSorts(codec, drafts[1..]);
      InsertKeepsSorted(codec, drafts[0], SortById(codec, drafts[1..]));
    }
  }

  lemma {:induction false} SortOfSorted<Raw(!new), Draft>(codec: Codec<Raw, Draft>, drafts: seq<Draft>)
    requires Sorted(codec, drafts)
    ensures SortById(codec, drafts) == drafts
  {
    if drafts != [] {
      SortOfSorted(codec, drafts[1..]);
      if |drafts| > 1 {
        assert Leq(codec.id(drafts[0]), codec.id(drafts[1]));
      }
    }
  }

  /** How many of the drafts carry this id. */
  function CountId<Raw(!new), Draft>(codec: Codec<Raw, Draft>, drafts: seq<Draft>, id: string): nat {
    if drafts == [] then 0 else
      (if codec.id(drafts[0]) == id then 1 else 0) + CountId(codec, drafts[1..], id)
  }

  lemma {:induction false} InsertCounts<Raw(!new), Draft>(codec: Codec<Raw, Draft>, draft: Draft, sorted: seq<Draft>,
                                                          id: string)
    ensures CountId(codec, Insert(codec, draft, sorted), id) == CountId(codec, [draft] + sorted, id)
    ensures forall d :: d in Insert(codec, draft, sorted) <==> d == draft || d in sorted
  {
    if sorted != [] && !Leq(codec.id(draft), codec.id(sorted[0])) {
      InsertCounts(codec, draft, sorted[1..], id);
      assert ([draft] + sorted)[1..] == sorted && ([draft] + sorted[1..])[1..] == sorted[1..];
      assert Insert(codec, draft, sorted)[1..] == Insert(codec, draft, sorted[1..]);
    }
  }

  lemma {:induction false} SortCounts<Raw(!new), Draft>(codec: Codec<Raw, Draft>, drafts: seq<Draft>, id: string)
    ensures CountId(codec, SortById(codec, drafts), id) == CountId(codec, drafts, id)
    ensures forall d :: d in SortById(codec, drafts) <==> d in drafts
  {
    if drafts != [] {
      SortCounts(codec, drafts[1..], id);
      InsertCounts(codec, drafts[0], SortById(codec, drafts[1..]), id);
      assert ([drafts[0]] + SortById(codec, drafts[1..]))[1..] == SortById(codec, drafts[1..]);
    }
  }

  // ---------------------------------------------------------------- what a document means

  function Drafts<Raw(!new), Draft>(codec: Codec<Raw, Draft>, raws: seq<Raw>): (placed: seq<Placed<Draft>>)
    ensures |placed| + |Invalid(codec, raws)| == |raws|
  {
    if raws == [] then [] else
      var last := |raws| - 1;
      var before := Drafts(codec, raws[..last]);
      match codec.decode(raws[last])
      case Some(draft) => before + [Placed(last, draft)]
      case None => before
  }

  function Invalid<Raw(!new), Draft>(codec: Codec<Raw, Draft>, raws: seq<Raw>): seq<Quarantined<Raw>> {
    if raws == [] then [] else
      var last := |raws| - 1;
      var before := Invalid(codec, raws[..last]);
      if codec.decode(raws[last]).Some? then before
      else before + [Quarantined(last, InvalidDefinition, raws[last])]
  }

  function CountPlaced<Raw(!new), Draft>(codec: Codec<Raw, Draft>, placed: seq<Placed<Draft>>, id: string): nat {
    if placed == [] then 0 else
      var last := |placed| - 1;
      CountPlaced(codec, placed[..last], id) + (if codec.id(placed[last].draft) == id then 1 else 0)
  }

  function CountRaw<Raw(!new), Draft>(codec: Codec<Raw, Draft>, quarantined: seq<Quarantined<Raw>>, id: string): nat {
    if quarantined == [] then 0 else
      var last := |quarantined| - 1;
      CountRaw(codec, quarantined[..last], id) + (if codec.rawId(quarantined[last].raw) == Some(id) then 1 else 0)
  }

  /** How many contenders there are for an id, among the valid drafts and everything quarantined before. */
  function Contenders<Raw(!new), Draft>(codec: Codec<Raw, Draft>, document: Document<Raw>, id: string): nat {
    CountPlaced(codec, Drafts(codec, document.templates), id) + CountRaw(codec, Preset(codec, document), id)
  }

  /** What is quarantined before ambiguous ids are looked for. */
  function Preset<Raw(!new), Draft>(codec: Codec<Raw, Draft>, document: Document<Raw>): seq<Quarantined<Raw>> {
    Invalid(codec, document.templates) + document.quarantined
  }

  function Accepted<Raw(!new), Draft>(codec: Codec<Raw, Draft>, document: Document<Raw>,
                                      placed: seq<Placed<Draft>>): seq<Draft> {
    if placed == [] then [] else
      var last := |placed| - 1;
      var before := Accepted(codec, document, placed[..last]);
      if Contenders(codec, document, codec.id(placed[last].draft)) > 1 then before else before + [placed[last].draft]
  }

  function Duplicates<Raw(!new), Draft>(codec: Codec<Raw, Draft>, document: Document<Raw>, placed: seq<Placed<Draft>>)
    : (duplicates: seq<Quarantined<Raw>>)
    ensures |duplicates| + |Accepted(codec, document, placed)| == |placed|
  {
    if placed == [] then [] else
      var last := |placed| - 1;
      var before := Duplicates(codec, document, placed[..last]);
      if Contenders(codec, document, codec.id(placed[last].draft)) > 1
      then before + [Quarantined(placed[last].index, DuplicateId, codec.encode(placed[last].draft))]
      else before
  }

  function Parse<Raw(!new), Draft>(codec: Codec<Raw, Draft>, document: Document<Raw>): State<Raw, Draft> {
    var placed := Drafts(codec, document.templates);
    State(SortById(codec, Accepted(codec, document, placed)),
          Preset(codec, document) + Duplicates(codec, document, placed))
  }

  function Serialize<Raw(!new), Draft>(codec: Codec<Raw, Draft>, state: State<Raw, Draft>): Document<Raw> {
    var sorted := SortById(codec, state.templates);
    Document(seq(|sorted|, i requires 0 <= i < |sorted| => codec.encode(sorted[i])), state.quarantined)
  }

  // ---------------------------------------------------------------- the parser

  function Get(counts: map<string, nat>, id: string): nat {
    if id in counts then counts[id] else 0
  }

  method CountIds<Raw(!new), Draft>(codec: Codec<Raw, Draft>, placed: seq<Placed<Draft>>,
                                    quarantined: seq<Quarantined<Raw>>)
    returns (counts: map<string, nat>)
    ensures forall id :: Get(counts, id) == CountPlaced(codec, placed, id) + CountRaw(codec, quarantined, id)
  {
    counts := map[];
    for i := 0 to |placed|
      invariant forall id :: Get(counts, id) == CountPlaced(codec, placed[..i], id)
    {
      assert placed[..i + 1][..i] == placed[..i];
      var id := codec.id(placed[i].draft);
      counts := counts[id := Get(counts, id) + 1];
    }
    assert placed[..|placed|] == placed;
    for i := 0 to |quarantined|
      invariant forall id :: Get(counts, id) == CountPlaced(codec, placed, id) + CountRaw(codec, quarantined[..i], id)
    {
      assert quarantined[..i + 1][..i] == quarantined[..i];
      var id := codec.rawId(quarantined[i].raw);
      if id.Some? {
        counts := counts[id.value := Get(counts, id.value) + 1];
      }
    }
    assert quarantined[..|quarantined|] == quarantined;
  }

  method ReadDrafts<Raw(!new), Draft>(codec: Codec<Raw, Draft>, document: Document<Raw>)
    returns (placed: seq<Placed<Draft>>, quarantined: seq<Quarantined<Raw>>)
    ensures placed == Drafts(codec, document.templates) && quarantined == Preset(codec, document)
  {
    var raws := document.templates;
    placed, quarantined := [], [];
    for i := 0 to |raws|
      invariant placed == Drafts(codec, raws[..i]) && quarantined == Invalid(codec, raws[..i])
    {
      assert raws[..i + 1][..i] == raws[..i];
      var draft := codec.decode(raws[i]);
      if draft.None? {
        quarantined := quarantined + [Quarantined(i, InvalidDefinition, raws[i])];
      } else {
        placed := placed + [Placed(i, draft.value)];
      }
    }
    assert raws[..|raws|] == raws;
    for i := 0 to |document.quarantined|
      invariant quarantined == Invalid(codec, raws) + document.quarantined[..i]
    {
      quarantined := quarantined + [document.quarantined[i]];
    }
  }

  /** The template part of `_parse_managed_state_with_version`. */
  method ParseDocument<Raw(!new), Draft>(codec: Codec<Raw, Draft>, document: Document<Raw>)
    returns (state: State<Raw, Draft>)
    ensures state == Parse(codec, document)
  {
    var placed, quarantined := ReadDrafts(codec, document);
    var counts := CountIds(codec, placed, quarantined);
    var accepted: seq<Draft> := [];
    for i := 0 to |placed|
      invariant accepted == Accepted(codec, document, placed[..i])
      invariant quarantined == Preset(codec, document) + Duplicates(codec, document, placed[..i])
    {
      assert placed[..i + 1][..i] == placed[..i];
      var draft := placed[i].draft;
      assert Get(counts, codec.id(draft)) == Contenders(codec, document, codec.id(draft));
      if Get(counts, codec.id(draft)) > 1 {
        quarantined := quarantined + [Quarantined(placed[i].index, DuplicateId, codec.encode(draft))];
      } else {
        accepted := accepted + [draft];
      }
    }
    assert placed[..|placed|] == placed;
    state := State(SortById(codec, accepted), quarantined);
  }

  // ---------------------------------------------------------------- what parsing keeps

  /** Every draft of the document is accepted or quarantined, and nothing else is. */
  lemma NothingIsLost<Raw(!new), Draft>(codec: Codec<Raw, Draft>, document: Document<Raw>)
    ensures var state := Parse(codec, document);
            |state.templates| + |state.quarantined| == |document.templates| + |document.quarantined|
  {
  }

  /** Where each draft goes: by its validity, and by whether it is the only contender for its id. */
  lemma {:induction false} EachDraftIsKept<Raw(!new), Draft>(codec: Codec<Raw, Draft>, document: Document<Raw>, i: nat)
    requires i < |document.templates|
    ensures var state := Parse(codec, document);
            match codec.decode(document.templates[i])
            case None => Quarantined(i, InvalidDefinition, document.templates[i]) in state.quarantined
            case Some(draft) =>
              if Contenders(codec, document, codec.id(draft)) > 1
              then Quarantined(i, DuplicateId, codec.encode(draft)) in state.quarantined
              else draft in state.templates
    ensures forall q :: q in document.quarantined ==> q in Parse(codec, document).quarantined
  {
    var raws, placed := document.templates, Drafts(codec, document.templates);
    DraftIsFiled(codec, raws, i);
    assert raws[..|raws|] == raws;
    var decoded := codec.decode(raws[i]);
    if decoded.Some? {
      var k :| 0 <= k < |placed| && placed[k] == Placed(i, decoded.value);
      PlacedIsFiled(codec, document, placed, k);
      SortCounts(codec, Accepted(codec, document, placed), "");
    }
  }

  lemma {:induction false} DraftIsFiled<Raw(!new), Draft>(codec: Codec<Raw, Draft>, raws: seq<Raw>, i: nat)
    requires i < |raws|
    ensures match codec.decode(raws[i])
            case None => Quarantined(i, InvalidDefinition, raws[i]) in Invalid(codec, raws)
            case Some(draft) => Placed(i, draft) in Drafts(codec, raws)
  {
    if i < |raws| - 1 {
      DraftIsFiled(codec, raws[..|raws| - 1], i);
    }
  }

  lemma {:induction false} PlacedIsFiled<Raw(!new), Draft>(codec: Codec<Raw, Draft>, document: Document<Raw>,
                                                         placed: seq<Placed<Draft>>, k: nat)
    requires k < |placed|
    ensures if Contenders(codec, document, codec.id(placed[k].draft)) > 1
            then Quarantined(placed[k].index, DuplicateId, codec.encode(placed[k].draft))
                   in Duplicates(codec, document, placed)
            else placed[k].draft in Accepted(codec, document, placed)
  {
    if k < |placed| - 1 {
      PlacedIsFiled(codec, document, placed[..|placed| - 1], k);
    }
  }

  lemma {:induction false} CountAppend<Raw(!new), Draft>(codec: Codec<Raw, Draft>, drafts: seq<Draft>, draft: Draft,
                                                         id: string)
    ensures CountId(codec, drafts + [draft], id)
         == CountId(codec, drafts, id) + (if codec.id(draft) == id then 1 else 0)
  {
    if drafts == [] {
      assert drafts + [draft] == [draft];
    } else {
      CountAppend(codec, drafts[1..], draft, id);
      assert (drafts + [draft])[1..] == drafts[1..] + [draft];
    }
  }

  lemma {:induction false} CountRawConcat<Raw(!new), Draft>(codec: Codec<Raw, Draft>, a: seq<Quarantined<Raw>>,
                                                          b: seq<Quarantined<Raw>>, id: string)
    ensures CountRaw(codec, a + b, id) == CountRaw(codec, a, id) + CountRaw(codec, b, id)
  {
    if b == [] {
      assert a + b == a;
    } else {
      var last := |b| - 1;
      CountRawConcat(codec, a, b[..last], id);
      assert (a + b)[..|a + b| - 1] == a + b[..last];
    }
  }

  /** An id keeps all its contenders or loses all of them to quarantine. */
  lemma {:induction false} AcceptedCounts<Raw(!new), Draft>(codec: Codec<Raw, Draft>, document: Document<Raw>,
                                                          placed: seq<Placed<Draft>>, id: string)
    requires AllEncodable(codec, placed)
    ensures var unique := Contenders(codec, document, id) <= 1;
            && CountId(codec, Accepted(codec, document, placed), id)
               == (if unique then CountPlaced(codec, placed, id) else 0)
            && CountRaw(codec, Duplicates(codec, document, placed), id)
               == (if unique then 0 else CountPlaced(codec, placed, id))
  {
    hide Contenders;
    if placed != [] {
      var last := |placed| - 1;
      AcceptedCounts(codec, document, placed[..last], id);
      var before, draft := Accepted(codec, document, placed[..last]), placed[last].draft;
      CountAppend(codec, before, draft, id);
      var quarantined := Duplicates(codec, document, placed[..last]);
      var added := Quarantined(placed[last].index, DuplicateId, codec.encode(draft));
      CountRawConcat(codec, quarantined, [added], id);
      assert [added][..0] == [];
      assert Encodable(codec, draft);
    }
  }

  ghost predicate Encodable<Raw(!new), Draft>(codec: Codec<Raw, Draft>, draft: Draft) {
    && codec.admits(draft) && codec.decode(codec.encode(draft)) == Some(draft)
    && codec.rawId(codec.encode(draft)) == Some(codec.id(draft))
  }

  ghost predicate AllEncodable<Raw(!new), Draft>(codec: Codec<Raw, Draft>, placed: seq<Placed<Draft>>) {
    forall k :: 0 <= k < |placed| ==> Encodable(codec, placed[k].draft)
  }

  lemma {:induction false} DraftsAreEncodable<Raw(!new), Draft>(codec: Codec<Raw, Draft>, raws: seq<Raw>)
    requires codec.Lawful()
    ensures AllEncodable(codec, Drafts(codec, raws))
  {
    if raws != [] {
      DraftsAreEncodable(codec, raws[..|raws| - 1]);
      assert codec.decode(raws[|raws| - 1]).Some? ==> Encodable(codec, codec.decode(raws[|raws| - 1]).value);
    }
  }

  lemma {:induction false} AcceptedAreEncodable<Raw(!new), Draft>(codec: Codec<Raw, Draft>, document: Document<Raw>,
                                                                placed: seq<Placed<Draft>>)
    requires AllEncodable(codec, placed)
    ensures forall d :: d in Accepted(codec, document, placed) ==>
              && Encodable(codec, d) && Contenders(codec, document, codec.id(d)) <= 1
              && CountPlaced(codec, placed, codec.id(d)) >= 1
  {
    if placed != [] {
      AcceptedAreEncodable(codec, document, placed[..|placed| - 1]);
    }
  }

  /** No accepted draft shares its id with another accepted one, or with anything in quarantine. */
  lemma {:induction false} AcceptedIdsAreTheirOwn<Raw(!new), Draft>(codec: Codec<Raw, Draft>, document: Document<Raw>,
                                                                    draft: Draft)
    requires codec.Lawful() && draft in Parse(codec, document).templates
    ensures var state := Parse(codec, document);
            && CountId(codec, state.templates, codec.id(draft)) == 1
            && CountRaw(codec, state.quarantined, codec.id(draft)) == 0
            && Encodable(codec, draft)
  {
    var placed, id := Drafts(codec, document.templates), codec.id(draft);
    var accepted := Accepted(codec, document, placed);
    SortCounts(codec, accepted, id);
    DraftsAreEncodable(codec, document.templates);
    AcceptedAreEncodable(codec, document, placed);
    AcceptedCounts(codec, document, placed, id);
    CountRawConcat(codec, Preset(codec, document), Duplicates(codec, document, placed), id);
  }

  // ---------------------------------------------------------------- writing it back

  lemma {:induction false} EncodedDrafts<Raw(!new), Draft>(codec: Codec<Raw, Draft>, drafts: seq<Draft>, raws: seq<Raw>)
    requires |raws| == |drafts|
    requires forall i :: 0 <= i < |drafts| ==> raws[i] == codec.encode(drafts[i]) && Encodable(codec, drafts[i])
    ensures Invalid(codec, raws) == []
    ensures |Drafts(codec, raws)| == |drafts|
    ensures forall i :: 0 <= i < |drafts| ==> Drafts(codec, raws)[i] == Placed(i, drafts[i])
  {
    if drafts != [] {
      EncodedDrafts(codec, drafts[..|drafts| - 1], raws[..|raws| - 1]);
    }
  }

  lemma {:induction false} PlacedCounts<Raw(!new), Draft>(codec: Codec<Raw, Draft>, placed: seq<Placed<Draft>>,
                                                        drafts: seq<Draft>, id: string)
    requires |placed| == |drafts| && forall i :: 0 <= i < |drafts| ==> placed[i].draft == drafts[i]
    ensures CountPlaced(codec, placed, id) == CountId(codec, drafts, id)
  {
    if drafts != [] {
      var last := |drafts| - 1;
      PlacedCounts(codec, placed[..last], drafts[..last], id);
      CountAppend(codec, drafts[..last], drafts[last], id);
      assert drafts == drafts[..last] + [drafts[last]];
    }
  }

  lemma {:induction false} AllAccepted<Raw(!new), Draft>(codec: Codec<Raw, Draft>, document: Document<Raw>,
                                                       placed: seq<Placed<Draft>>, drafts: seq<Draft>)
    requires |placed| == |drafts| && forall i :: 0 <= i < |drafts| ==> placed[i].draft == drafts[i]
    requires forall d :: d in drafts ==> Contenders(codec, document, codec.id(d)) <= 1
    ensures Accepted(codec, document, placed) == drafts && Duplicates(codec, document, placed) == []
  {
    hide Contenders;
    if drafts != [] {
      var last := |drafts| - 1;
      AllAccepted(codec, document, placed[..last], drafts[..last]);
      assert drafts[last] in drafts;
      assert drafts == drafts[..last] + [drafts[last]];
    } else {
      assert placed == [];
    }
  }

  /** Each draft passes by itself, and no two share an id. */
  ghost predicate Composable<Raw(!new), Draft>(codec: Codec<Raw, Draft>, drafts: seq<Draft>) {
    && (forall i :: 0 <= i < |drafts| ==> codec.admits(drafts[i]))
    && forall i, j :: 0 <= i < j < |drafts| ==> codec.id(drafts[i]) != codec.id(drafts[j])
  }

  /** `effective_playlist_templates`, which raises on the first draft that does not fit. */
  method Compose<Raw(!new), Draft>(codec: Codec<Raw, Draft>, drafts: seq<Draft>) returns (composed: bool)
    ensures composed <==> Composable(codec, drafts)
  {
    var seen: set<string> := {};
    for k := 0 to |drafts|
      invariant Composable(codec, drafts[..k])
      invariant forall id :: id in seen <==> exists i :: 0 <= i < k && codec.id(drafts[i]) == id
    {
      var id := codec.id(drafts[k]);
      if !codec.admits(drafts[k]) || id in seen {
        return false;
      }
      seen := seen + {id};
    }
    return true;
  }

  /** The templates of a state in the order in which it is written. */
  function Ordered<Raw(!new), Draft>(codec: Codec<Raw, Draft>, state: State<Raw, Draft>): State<Raw, Draft> {
    state.(templates := SortById(codec, state.templates))
  }

  /**
   * The template part of `serialize_managed_state`: it refuses drafts that do not compose, and reads
   * back what it is about to write.
   */
  method WriteDocument<Raw(!new, ==), Draft(==)>(codec: Codec<Raw, Draft>, state: State<Raw, Draft>)
    returns (r: Option<Document<Raw>>)
    ensures r.Some? ==> r.value == Serialize(codec, state) && Parse(codec, r.value) == Ordered(codec, state)
    ensures r.None? ==>
              || !Composable(codec, SortById(codec, state.templates))
              || Parse(codec, Serialize(codec, state)) != Ordered(codec, state)
  {
    var composed := Compose(codec, SortById(codec, state.templates));
    if !composed {
      return None;
    }
    var payload := Serialize(codec, state);
    var canonical := ParseDocument(codec, payload);
    return if canonical == Ordered(codec, state) then Some(payload) else None;
  }

  /** Where an id is counted once, it stands in one place. */
  lemma {:induction false} CountedOnce<Raw(!new), Draft>(codec: Codec<Raw, Draft>, drafts: seq<Draft>, i: nat, j: nat)
    requires i < j < |drafts| && codec.id(drafts[i]) == codec.id(drafts[j])
    ensures CountId(codec, drafts, codec.id(drafts[i])) >= 2
  {
    if i > 0 {
      CountedOnce(codec, drafts[1..], i - 1, j - 1);
    } else {
      Counted(codec, drafts[1..], j - 1);
    }
  }

  lemma {:induction false} Counted<Raw(!new), Draft>(codec: Codec<Raw, Draft>, drafts: seq<Draft>, i: nat)
    requires i < |drafts|
    ensures CountId(codec, drafts, codec.id(drafts[i])) >= 1
  {
    if i > 0 {
      Counted(codec, drafts[1..], i - 1);
    }
  }

  /** The drafts of a parsed state are in order, and compose. */
  lemma {:induction false} ParsedComposes<Raw(!new), Draft>(codec: Codec<Raw, Draft>, document: Document<Raw>)
    requires codec.Lawful()
    ensures var drafts := Parse(codec, document).templates;
            && SortById(codec, drafts) == drafts && Composable(codec, drafts)
            && forall d :: d in drafts ==> Encodable(codec, d)
  {
    hide Contenders, Accepted, Drafts, Preset, Duplicates;
    var drafts := Parse(codec, document).templates;
    SortSorts(codec, Accepted(codec, document, Drafts(codec, document.templates)));
    SortOfSorted(codec, drafts);
    forall d | d in drafts
      ensures Encodable(codec, d) && CountId(codec, drafts, codec.id(d)) == 1
    {
      AcceptedIdsAreTheirOwn(codec, document, d);
    }
    forall i, j | 0 <= i < j < |drafts| ensures codec.id(drafts[i]) != codec.id(drafts[j]) {
      assert drafts[i] in drafts;
      if codec.id(drafts[i]) == codec.id(drafts[j]) {
        CountedOnce(codec, drafts, i, j);
      }
    }
  }

  /** A parsed state is a normal form: its drafts compose, and written and read again it is the same. */
  lemma {:induction false} ParseIsStable<Raw(!new), Draft>(codec: Codec<Raw, Draft>, document: Document<Raw>)
    requires codec.Lawful()
    ensures var state := Parse(codec, document);
            && Ordered(codec, state) == state && Composable(codec, state.templates)
            && Parse(codec, Serialize(codec, state)) == state
  {
    hide Contenders, Composable, Encodable, CountPlaced, CountId, CountRaw, Sorted;
    var state := Parse(codec, document);
    var drafts := state.templates;
    ParsedComposes(codec, document);
    var written := Serialize(codec, state);
    EncodedDrafts(codec, drafts, written.templates);
    var placed := Drafts(codec, written.templates);
    assert Preset(codec, written) == state.quarantined;
    forall d | d in drafts ensures Contenders(codec, written, codec.id(d)) <= 1 {
      AcceptedIdsAreTheirOwn(codec, document, d);
      PlacedCounts(codec, placed, drafts, codec.id(d));
      ContendersOf(codec, written, codec.id(d));
    }
    AllAccepted(codec, written, placed, drafts);
  }

  /** Loading and saving: what was read can always be written, and what is written reads back as the same state. */
  method LoadThenSave<Raw(!new, ==), Draft(==)>(codec: Codec<Raw, Draft>, document: Document<Raw>)
    returns (r: Option<Document<Raw>>)
    requires codec.Lawful()
    ensures r.Some? && Parse(codec, r.value) == Parse(codec, document)
  {
    var state := ParseDocument(codec, document);
    ParseIsStable(codec, document);
    r := WriteDocument(codec, state);
  }

  lemma ContendersOf<Raw(!new), Draft>(codec: Codec<Raw, Draft>, document: Document<Raw>, id: string)
    ensures Contenders(codec, document, id)
         == CountPlaced(codec, Drafts(codec, document.templates), id) + CountRaw(codec, Preset(codec, document), id)
  {
  }
}
