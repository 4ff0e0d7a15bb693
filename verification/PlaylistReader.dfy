/**
 * The bounded, paginated playlist reader of reconciliation.py, against a server that may answer
 * anything at all, and then against a server that answers honestly while other editors keep
 * publishing new versions between two pages.
 */
module PlaylistReader {
  import opened Basics
  import opened Models

  const PAGE_SIZE := 50
  const MAX_ITEMS := 100

  /** `None` is a position whose media the server hides. */
  type Slot = Option<Uri>

  /** What a playlist entry holds under its "item" or its "track" key. */
  datatype Media = Absent | Null | Malformed | Media(uri: Uri)
  datatype RawItem = NotAnObject | Entry(item: Media, track: Media)
  datatype Next = NextMissing | NextInvalid | NextNull | NextUrl
  /** A failed request, a body that is not an object, or a body whose list and total may be unusable. */
  datatype Response =
    | Failed
    | NotABody
    | Body(items: Option<seq<RawItem>>, next: Next, total: Option<int>)
  datatype Page = Page(items: seq<RawItem>, more: bool, total: nat)

  /** Any server whatever: the answer to the k-th request, for a limit and an offset. */
  type Server = (nat, nat, nat) -> Response

  /** A page is usable exactly if it ends the list at its total, or is not empty and stops short of it. */
  function RequirePage(response: Response, offset: nat): (page: Option<Page>)
    ensures page.Some? <==>
              && response.Body? && response.items.Some? && response.total.Some?
              && var end, total := offset + |response.items.value|, response.total.value;
                 || (response.next.NextNull? && end == total)
                 || (response.next.NextUrl? && response.items.value != [] && end < total)
    ensures page.Some? ==> page.value == Page(response.items.value, response.next.NextUrl?, response.total.value)
    ensures page.Some? ==>
              && (page.value.more <==> offset + |page.value.items| < page.value.total)
              && offset + |page.value.items| <= page.value.total
              && (page.value.more ==> page.value.items != [])
  {
    if !response.Body? || response.items.None? || response.total.None? || response.total.value < 0 then None
    else if !response.next.NextNull? && !response.next.NextUrl? then None
    else
      var items, total, more := response.items.value, response.total.value, response.next.NextUrl?;
      var consumed := offset + |items|;
      if items == [] && more then None
      else if consumed > total then None
      else if consumed < total && !more then None
      else if consumed >= total && more then None
      else Some(Page(items, more, total))
  }

  /** One entry as a slot; the outer `None` is the reader's failure. */
  function ExtractSlot(raw: RawItem, allowUnavailable: bool): (slot: Option<Slot>)
    ensures slot == Some(None) ==> allowUnavailable
    ensures slot.Some? && slot.value.Some? ==>
              raw.Entry? && (raw.item == Media(slot.value.value) || raw.track == Media(slot.value.value))
    ensures raw.Entry? && raw.item.Media? && raw.track.Media? ==> (slot.None? <==> raw.item.uri != raw.track.uri)
    ensures raw.Entry? && (raw.item.Malformed? || raw.track.Malformed?) ==> slot.None?
  {
    match raw
    case NotAnObject => None
    case Entry(Absent, Absent) => None
    case Entry(Media(a), Media(b)) => if a == b then Some(Some(a)) else None
    case Entry(Malformed, _) => None
    case Entry(_, Malformed) => None
    case Entry(Media(a), _) => Some(Some(a))
    case Entry(_, Media(b)) => Some(Some(b))
    case Entry(_, _) => if allowUnavailable then Some(None) else None
  }

  method ExtractSlots(items: seq<RawItem>, allowUnavailable: bool) returns (slots: Option<seq<Slot>>)
    ensures slots.Some? <==> forall j :: 0 <= j < |items| ==> ExtractSlot(items[j], allowUnavailable).Some?
    ensures slots.Some? ==>
              && |slots.value| == |items|
              && forall j :: 0 <= j < |items| ==> ExtractSlot(items[j], allowUnavailable) == Some(slots.value[j])
  {
    var out: seq<Slot> := [];
    for i := 0 to |items|
      invariant |out| == i
      invariant forall j :: 0 <= j < i ==> ExtractSlot(items[j], allowUnavailable) == Some(out[j])
    {
      var slot := ExtractSlot(items[i], allowUnavailable);
      if slot.None? {
        return None;
      }
      out := out + [slot.value];
    }
    return Some(out);
  }

  /** The page an honest server cuts out of `content`, hiding the positions `hidden` names. */
  function PageOf(content: seq<Uri>, hidden: nat -> bool, limit: nat, offset: nat): (response: Response)
    ensures response.Body? && response.items.Some? && response.total == Some(|content|)
  {
    var lo := if offset <= |content| then offset else |content|;
    var hi := if offset + limit <= |content| then offset + limit else |content|;
    var items := if lo <= hi
                 then seq(hi - lo, j requires 0 <= j < hi - lo =>
                   Entry(if hidden(lo + j) then Null else Media(content[lo + j]), Absent))
                 else [];
    Body(Some(items), if offset + limit < |content| then NextUrl else NextNull, Some(|content|))
  }

  /** Request k is refused or lost, or is answered from the version `contents(k)`. */
  ghost predicate Honest(server: Server, contents: nat -> seq<Uri>, hidden: nat -> nat -> bool) {
    forall k, limit, offset ::
      server(k, limit, offset) == Failed
      || server(k, limit, offset) == PageOf(contents(k), hidden(k), limit, offset)
  }

  function Shown(uri: Uri, hidden: bool): Slot {
    if hidden then None else Some(uri)
  }

  predicate Shows(slot: Slot, uri: Uri) {
    slot.None? || slot.value == uri
  }

  /**
   * What a successful read says about an honest server: slot i is what request i / 50 of the read
   * was shown, in a version that has as many items as the first one had, and the slots stop only
   * at its end or at position 101.
   */
  ghost predicate Observed(slots: seq<Slot>, contents: nat -> seq<Uri>, hidden: nat -> nat -> bool,
                           first: nat, calls: nat) {
    && |slots| == (if |contents(first)| <= MAX_ITEMS then |contents(first)| else MAX_ITEMS + 1)
    && forall i :: 0 <= i < |slots| ==>
         && i / PAGE_SIZE < calls
         && |contents(first + i / PAGE_SIZE)| == |contents(first)|
         && slots[i] == Shown(contents(first + i / PAGE_SIZE)[i], hidden(first + i / PAGE_SIZE)(i))
  }

  /** A page for every 50 items up to 100, and one item more where those pages are full. */
  function Requests(total: nat): nat {
    if total <= MAX_ITEMS then total / PAGE_SIZE + 1 else MAX_ITEMS / PAGE_SIZE + 1
  }

  /** Nothing that is asked at this request is answered. */
  ghost predicate Silent(server: Server, k: nat) {
    forall limit, offset :: server(k, limit, offset) == Failed
  }

  /** The first page shows all of a short content, with nothing hidden. */
  ghost predicate OnePage(server: Server, first: nat, content: seq<Uri>) {
    |content| < PAGE_SIZE
    && exists hidden :: server(first, PAGE_SIZE, 0) == PageOf(content, hidden, PAGE_SIZE, 0)
                        && InFullView(hidden, |content|)
  }

  ghost predicate InFullView(hidden: nat -> bool, n: nat) {
    forall i :: 0 <= i < n ==> !hidden(i)
  }

  lemma FirstPage(content: seq<Uri>, hidden: nat -> bool, allow: bool)
    requires |content| < PAGE_SIZE && InFullView(hidden, |content|)
    ensures var required := RequirePage(PageOf(content, hidden, PAGE_SIZE, 0), 0);
            && required.Some? && !required.value.more && required.value.total == |content|
            && |required.value.items| == |content|
            && forall j :: 0 <= j < |content| ==>
                 ExtractSlot(required.value.items[j], allow) == Some(Some(content[j]))
  {
  }

  /** From request `first` on every answer is a page of this content, in full view. */
  ghost predicate Steady(server: Server, first: nat, content: seq<Uri>) {
    forall k, limit, offset :: k >= first ==> IsPageOf(server(k, limit, offset), content, limit, offset)
  }

  ghost predicate IsPageOf(response: Response, content: seq<Uri>, limit: nat, offset: nat) {
    exists hidden :: response == PageOf(content, hidden, limit, offset) && InFullView(hidden, |content|)
  }

  lemma PageIsRequired(content: seq<Uri>, hidden: nat -> bool, limit: nat, offset: nat)
    requires limit > 0 && offset <= |content| && InFullView(hidden, |content|)
    ensures var required := RequirePage(PageOf(content, hidden, limit, offset), offset);
            && required.Some? && required.value.total == |content| && offset + |required.value.items| <= |content|
            && forall j :: 0 <= j < |required.value.items| ==>
                 required.value.items[j] == Entry(Media(content[offset + j]), Absent)
  {
  }

  /** Such a page is accepted within the content. */
  lemma SteadyPage(response: Response, content: seq<Uri>, limit: nat, offset: nat, allow: bool,
                   expected: Option<nat>, page: Option<SlotPage>)
    requires IsPageOf(response, content, limit, offset) && limit > 0 && offset <= |content|
    requires expected.Some? ==> expected.value == |content|
    requires page.Some? ==> Answers(page.value, response, offset, allow)
    requires page.None? ==> NoAnswer(response, offset, allow, expected)
    ensures page.Some? && page.value.total == |content|
  {
    hide ExtractSlot, PageOf, RequirePage;
    var hidden :| response == PageOf(content, hidden, limit, offset) && InFullView(hidden, |content|);
    PageIsRequired(content, hidden, limit, offset);
    var required := RequirePage(response, offset);
    var items := required.value.items;
    forall j | 0 <= j < |items| ensures ExtractSlot(items[j], allow) == Some(Some(content[offset + j])) {
      ExtractShown(content[offset + j], allow);
    }
    var slots: seq<Slot> := seq(|items|, j requires 0 <= j < |items| => Some(content[offset + j]));
    assert Answers(SlotPage(slots, required.value.more, |content|), response, offset, allow);
  }

  lemma ExtractShown(uri: Uri, allow: bool)
    ensures ExtractSlot(Entry(Media(uri), Absent), allow) == Some(Some(uri))
  {
  }

  /** Such a page is accepted, and is the whole of the content. */
  lemma OnePageIsAccepted(server: Server, first: nat, content: seq<Uri>, allow: bool, page: Option<SlotPage>)
    requires OnePage(server, first, content)
    requires page.Some? ==> Answers(page.value, server(first, PAGE_SIZE, 0), 0, allow)
    requires page.None? ==> NoAnswer(server(first, PAGE_SIZE, 0), 0, allow, None)
    ensures page.Some? && !page.value.more && |page.value.slots| == |content| < PAGE_SIZE
  {
    hide PageOf, ExtractSlot, RequirePage;
    var hidden :| server(first, PAGE_SIZE, 0) == PageOf(content, hidden, PAGE_SIZE, 0)
                  && InFullView(hidden, |content|);
    FirstPage(content, hidden, allow);
    var slots: seq<Slot> := seq(|content|, i requires 0 <= i < |content| => Some(content[i]));
    assert Answers(SlotPage(slots, false, |content|), server(first, PAGE_SIZE, 0), 0, allow);
  }

  lemma FirstRead(server: Server, first: nat, allow: bool, page: Option<SlotPage>)
    requires page.Some? ==> Answers(page.value, server(first, PAGE_SIZE, 0), 0, allow)
    requires page.None? ==> NoAnswer(server(first, PAGE_SIZE, 0), 0, allow, None)
    ensures forall content :: OnePage(server, first, content) ==>
              page.Some? && !page.value.more && |page.value.slots| < PAGE_SIZE
  {
    hide Answers, NoAnswer, OnePage;
    forall content | OnePage(server, first, content)
      ensures page.Some? && !page.value.more && |page.value.slots| < PAGE_SIZE
    {
      OnePageIsAccepted(server, first, content, allow, page);
    }
  }

  /** The same for any content that the server is steady in. */
  lemma SteadyRead(server: Server, first: nat, calls: nat, limit: nat, offset: nat, allow: bool, expected: Option<nat>,
                   page: Option<SlotPage>)
    requires limit > 0 && (expected.None? ==> offset == 0) && (expected.Some? ==> offset <= expected.value)
    requires page.Some? ==> Answers(page.value, server(first + calls, limit, offset), offset, allow)
    requires page.None? ==> NoAnswer(server(first + calls, limit, offset), offset, allow, expected)
    ensures forall content :: Steady(server, first, content) && (expected.Some? ==> expected.value == |content|) ==>
              page.Some? && page.value.total == |content|
  {
    hide Answers, IsPageOf, NoAnswer;
    forall content | Steady(server, first, content) && (expected.Some? ==> expected.value == |content|)
      ensures page.Some? && page.value.total == |content|
    {
      SteadyPage(server(first + calls, limit, offset), content, limit, offset, allow, expected, page);
    }
  }

  /** `_read_overflow_item`: one item more, of the total that is expected. */
  method ReadOverflow(server: Server, first: nat, calls: nat, offset: nat, allowUnavailable: bool, expected: nat)
    returns (page: Option<SlotPage>)
    requires offset <= expected
    ensures page.Some? ==>
              && Answers(page.value, server(first + calls, 1, offset), offset, allowUnavailable)
              && page.value.total == expected
              && (page.value.more <==> offset + |page.value.slots| < expected)
              && (offset < expected ==> page.value.slots != [])
              && (!allowUnavailable ==> AllVisible(page.value.slots))
              && !Silent(server, first + calls)
    ensures forall content :: Steady(server, first, content) && |content| == expected ==> page.Some?
  {
    hide Answers, NoAnswer, Steady, Silent;
    page := ReadPage(server, first + calls, 1, offset, allowUnavailable, Some(expected));
    SteadyRead(server, first, calls, 1, offset, allowUnavailable, Some(expected), page);
    if page.Some? {
      NotSilent(page.value, server, first + calls, 1, offset, allowUnavailable);
    }
  }

  /**
   * The reader. `total` is the length the server reports. Against any server it sends at most 101
   * requests; a read that succeeds returns exactly `total` slots, or more than 100 of them.
   */
  method ReadPlaylist(server: Server, first: nat, allowUnavailable: bool,
                      ghost contents: nat -> seq<Uri>, ghost hidden: nat -> nat -> bool)
    returns (slots: Option<seq<Slot>>, total: nat, calls: nat)
    ensures 1 <= calls <= MAX_ITEMS + 1
    ensures slots.Some? ==> |slots.value| == total || MAX_ITEMS < |slots.value| <= total
    ensures slots.Some? && !allowUnavailable ==> AllVisible(slots.value)
    ensures slots.Some? && Honest(server, contents, hidden) ==>
              && Observed(slots.value, contents, hidden, first, calls) && total == |contents(first)|
              && calls == Requests(total)
    ensures forall content :: OnePage(server, first, content) ==> slots.Some? && calls == 1
    ensures forall content :: Steady(server, first, content) ==> slots.Some?
    ensures slots.Some? ==> !Silent(server, first + calls - 1)
  {
    hide Honest, Pages, Observed, Answers, RequirePage, OnePage, Silent, Steady, NoAnswer, ExtractSlot;
    var out: seq<Slot> := [];
    calls, total := 0, 0;
    while |out| < MAX_ITEMS
      invariant calls <= |out| && calls <= MAX_ITEMS
      invariant calls == 0 ==> out == []
      invariant calls > 0 ==> |out| < total
      invariant calls > 0 ==> forall content :: !OnePage(server, first, content)
      invariant calls > 0 ==> forall content :: Steady(server, first, content) ==> total == |content|
      invariant !allowUnavailable ==> AllVisible(out)
      invariant Honest(server, contents, hidden) && calls > 0 ==> Pages(out, contents, hidden, first, calls, total)
      decreases MAX_ITEMS - |out|
    {
      var limit := if PAGE_SIZE <= MAX_ITEMS - |out| then PAGE_SIZE else MAX_ITEMS - |out|;
      var page := ReadPage(server, first + calls, limit, |out|, allowUnavailable,
                           if calls == 0 then None else Some(total));
      if calls == 0 {
        FirstRead(server, first, allowUnavailable, page);
      }
      var expected := if calls == 0 then None else Some(total);
      SteadyRead(server, first, calls, limit, |out|, allowUnavailable, expected, page);
      if page.None? {
        return None, total, calls + 1;
      }
      NotSilent(page.value, server, first + calls, limit, |out|, allowUnavailable);
      if Honest(server, contents, hidden) {
        PageExtends(server, contents, hidden, first, calls, limit, out, page.value, allowUnavailable);
      }
      out, total, calls := out + page.value.slots, page.value.total, calls + 1;
      if !page.value.more {
        if |page.value.slots| == limit {
          var overflow := ReadOverflow(server, first, calls, |out|, allowUnavailable, total);
          if overflow.None? {
            return None, total, calls + 1;
          }
          return Some(out), total, calls + 1;
        }
        return Some(out), total, calls;
      }
    }
    var overflow := ReadOverflow(server, first, calls, |out|, allowUnavailable, total);
    if overflow.None? {
      return None, total, calls + 1;
    }
    if Honest(server, contents, hidden) {
      OverflowExtends(server, contents, hidden, first, calls, out, overflow.value, allowUnavailable);
    }
    return Some(out + [overflow.value.slots[0]]), total, calls + 1;
  }

  datatype SlotPage = SlotPage(slots: seq<Slot>, more: bool, total: nat)

  predicate AllVisible(slots: seq<Slot>) {
    forall i :: 0 <= i < |slots| ==> slots[i].Some?
  }

  /** One request of a read that has `offset` items and expects the total it saw before, if any. */
  ghost predicate Answers(page: SlotPage, response: Response, offset: nat, allowUnavailable: bool) {
    var required := RequirePage(response, offset);
    && required.Some? && required.value.total == page.total && required.value.more == page.more
    && |page.slots| == |required.value.items|
    && forall j :: 0 <= j < |page.slots| ==>
         ExtractSlot(required.value.items[j], allowUnavailable) == Some(page.slots[j])
  }

  /** Nothing that agrees with the expected total can be made of the response. */
  ghost predicate NoAnswer(response: Response, offset: nat, allowUnavailable: bool, expected: Option<nat>) {
    forall p :: !Answers(p, response, offset, allowUnavailable) || (expected.Some? && p.total != expected.value)
  }

  method ReadPage(server: Server, k: nat, limit: nat, offset: nat, allowUnavailable: bool, expected: Option<nat>)
    returns (page: Option<SlotPage>)
    ensures page.Some? ==>
              && Answers(page.value, server(k, limit, offset), offset, allowUnavailable)
              && (expected.Some? ==> page.value.total == expected.value)
              && offset + |page.value.slots| <= page.value.total
              && (page.value.more <==> offset + |page.value.slots| < page.value.total)
              && (page.value.more ==> page.value.slots != [])
              && (!allowUnavailable ==> AllVisible(page.value.slots))
    ensures page.None? ==> NoAnswer(server(k, limit, offset), offset, allowUnavailable, expected)
  {
    var required := RequirePage(server(k, limit, offset), offset);
    if required.None? || (expected.Some? && required.value.total != expected.value) {
      return None;
    }
    var slots := ExtractSlots(required.value.items, allowUnavailable);
    if slots.None? {
      return None;
    }
    return Some(SlotPage(slots.value, required.value.more, required.value.total));
  }

  /** The loop's view of an honest server: full pages so far, all of versions of one length. */
  ghost predicate Pages(out: seq<Slot>, contents: nat -> seq<Uri>, hidden: nat -> nat -> bool,
                        first: nat, calls: nat, total: nat) {
    && total == |contents(first)|
    && |out| == calls * PAGE_SIZE <= MAX_ITEMS
    && forall i :: 0 <= i < |out| ==>
         && |contents(first + i / PAGE_SIZE)| == total
         && i < total
         && out[i] == Shown(contents(first + i / PAGE_SIZE)[i], hidden(first + i / PAGE_SIZE)(i))
  }

  lemma NotFailed(page: SlotPage, response: Response, offset: nat, allow: bool)
    requires Answers(page, response, offset, allow)
    ensures response != Failed
  {
  }

  lemma NotSilent(page: SlotPage, server: Server, k: nat, limit: nat, offset: nat, allow: bool)
    requires Answers(page, server(k, limit, offset), offset, allow)
    ensures !Silent(server, k)
  {
    NotFailed(page, server(k, limit, offset), offset, allow);
  }

  /** What an accepted page of an honest server shows: its stretch of the content. */
  lemma PageShows(content: seq<Uri>, hidden: nat -> bool, limit: nat, offset: nat, page: SlotPage, allow: bool)
    requires limit > 0 && Answers(page, PageOf(content, hidden, limit, offset), offset, allow)
    ensures page.total == |content| && offset + |page.slots| <= |content|
    ensures page.more ==> |page.slots| == limit && offset + limit < |content|
    ensures !page.more ==> offset + |page.slots| == |content| && |page.slots| <= limit
    ensures forall j :: 0 <= j < |page.slots| ==> page.slots[j] == Shown(content[offset + j], hidden(offset + j))
  {
  }

  lemma PageExtends(server: Server, contents: nat -> seq<Uri>, hidden: nat -> nat -> bool, first: nat, calls: nat,
                    limit: nat, out: seq<Slot>, page: SlotPage, allow: bool)
    requires Honest(server, contents, hidden)
    requires |out| < MAX_ITEMS
    requires limit == if PAGE_SIZE <= MAX_ITEMS - |out| then PAGE_SIZE else MAX_ITEMS - |out|
    requires if calls > 0 then Pages(out, contents, hidden, first, calls, page.total) else out == []
    requires Answers(page, server(first + calls, limit, |out|), |out|, allow)
    ensures page.more ==> Pages(out + page.slots, contents, hidden, first, calls + 1, page.total)
    ensures page.total == |contents(first)|
    ensures !page.more ==>
              && Observed(out + page.slots, contents, hidden, first, calls + 1)
              && Observed(out + page.slots, contents, hidden, first, calls + 2)
              && Requests(page.total) == calls + (if |page.slots| == limit then 2 else 1)
  {
    hide Answers, PageOf;
    NotFailed(page, server(first + calls, limit, |out|), |out|, allow);
    assert server(first + calls, limit, |out|) == PageOf(contents(first + calls), hidden(first + calls), limit, |out|);
    PageShows(contents(first + calls), hidden(first + calls), limit, |out|, page, allow);
    var all := out + page.slots;
    forall i | |out| <= i < |all|
      ensures i / PAGE_SIZE == calls && i < page.total
      ensures all[i] == Shown(contents(first + calls)[i], hidden(first + calls)(i))
    {
      assert all[i] == page.slots[i - |out|];
    }
  }

  lemma OverflowExtends(server: Server, contents: nat -> seq<Uri>, hidden: nat -> nat -> bool, first: nat, calls: nat,
                        out: seq<Slot>, page: SlotPage, allow: bool)
    requires Honest(server, contents, hidden)
    requires calls > 0 && MAX_ITEMS <= |out| < page.total
    requires Pages(out, contents, hidden, first, calls, page.total)
    requires Answers(page, server(first + calls, 1, |out|), |out|, allow)
    ensures |page.slots| == 1 && page.total == |contents(first)|
    ensures Observed(out + [page.slots[0]], contents, hidden, first, calls + 1)
    ensures Requests(page.total) == calls + 1
  {
  }

  /** A read that stopped within one page, or during which nothing changed, saw one version. */
  ghost predicate Matches(slots: seq<Slot>, content: seq<Uri>) {
    && |slots| == (if |content| <= MAX_ITEMS then |content| else MAX_ITEMS + 1)
    && forall i :: 0 <= i < |slots| ==> Shows(slots[i], content[i])
  }

  lemma OnePageIsOneVersion(slots: seq<Slot>, contents: nat -> seq<Uri>, hidden: nat -> nat -> bool,
                            first: nat, calls: nat)
    requires Observed(slots, contents, hidden, first, calls) && |slots| <= PAGE_SIZE
    ensures Matches(slots, contents(first))
  {
    assert forall i :: 0 <= i < |slots| ==> first + i / PAGE_SIZE == first;
  }

  lemma StableReadIsOneVersion(slots: seq<Slot>, contents: nat -> seq<Uri>, hidden: nat -> nat -> bool,
                               first: nat, calls: nat, content: seq<Uri>)
    requires calls > 0 && Observed(slots, contents, hidden, first, calls)
    requires forall k :: first <= k < first + calls ==> contents(k) == content
    ensures Matches(slots, content)
  {
  }

  /** `_visible_positions_match`: same length, and no visible slot differs. */
  predicate VisiblyMatches(slots: seq<Slot>, desired: seq<Uri>) {
    && |slots| == |desired|
    && forall i :: 0 <= i < |slots| ==> Shows(slots[i], desired[i])
  }

  predicate Exactly(slots: seq<Slot>, desired: seq<Uri>) {
    VisiblyMatches(slots, desired) && AllVisible(slots)
  }

  /** Comparing at most 101 slots decides equality of the whole remote list. */
  lemma ReadDecidesEquality(slots: seq<Slot>, content: seq<Uri>, desired: seq<Uri>)
    requires Matches(slots, content) && AllVisible(slots) && |desired| <= MAX_ITEMS
    ensures Exactly(slots, desired) <==> content == desired
  {
    if Exactly(slots, desired) {
      assert forall i :: 0 <= i < |desired| ==> slots[i] == Some(content[i]) && slots[i] == Some(desired[i]);
    }
  }
}
