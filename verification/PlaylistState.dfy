/** The `playlist_state` row of persistence.py: an upsert that absorbs records in any order of their times. */
module PlaylistState {
  import opened Basics
  import opened Models

  datatype Attempt = Attempt(startedAt: Instant, finishedAt: Instant, ok: bool, error: Option<string>)
  datatype Row = Row(lastAttemptAt: Instant, lastSuccessAt: Option<Instant>, lastError: Option<string>)

  function Max(a: Instant, b: Instant): Instant {
    if a < b then b else a
  }

  /** The row a first record inserts; the row it is compared with on conflict. */
  function Inserted(attempt: Attempt): Row {
    Row(attempt.finishedAt,
        if attempt.ok then Some(attempt.finishedAt) else None,
        if attempt.ok then None else attempt.error)
  }

  /** The three assignments of ON CONFLICT ... DO UPDATE. */
  function Merge(row: Row, excluded: Row): Row {
    Row(Max(row.lastAttemptAt, excluded.lastAttemptAt),
        if row.lastSuccessAt.None? then excluded.lastSuccessAt
        else if excluded.lastSuccessAt.None? then row.lastSuccessAt
        else Some(Max(row.lastSuccessAt.value, excluded.lastSuccessAt.value)),
        if excluded.lastAttemptAt >= row.lastAttemptAt then excluded.lastError else row.lastError)
  }

  /** What the row holds after these records, in the order they were written. */
  function Fold(attempts: seq<Attempt>): (row: Option<Row>)
    ensures row.None? <==> attempts == []
  {
    if attempts == [] then None else
      var last := Inserted(attempts[|attempts| - 1]);
      match Fold(attempts[..|attempts| - 1])
      case None => Some(last)
      case Some(row) => Some(Merge(row, last))
  }

  ghost predicate IsLatest(attempts: seq<Attempt>, at: Instant) {
    && (exists a :: a in attempts && a.finishedAt == at)
    && forall a :: a in attempts ==> a.finishedAt <= at
  }

  ghost predicate IsLatestSuccess(attempts: seq<Attempt>, at: Option<Instant>) {
    match at
    case None => forall a :: a in attempts ==> !a.ok
    case Some(t) =>
      && (exists a :: a in attempts && a.ok && a.finishedAt == t)
      && forall a :: a in attempts && a.ok ==> a.finishedAt <= t
  }

  /** The record that was written last among those that finished last. */
  ghost predicate IsDeciding(attempts: seq<Attempt>, i: nat) {
    && i < |attempts|
    && IsLatest(attempts, attempts[i].finishedAt)
    && forall j :: i < j < |attempts| ==> attempts[j].finishedAt < attempts[i].finishedAt
  }

  /** Whatever the order of the records' times: the latest attempt, the latest success, the deciding error. */
  lemma {:induction false} FoldMeans(attempts: seq<Attempt>) returns (deciding: nat)
    requires attempts != []
    ensures var row := Fold(attempts).value;
            && IsLatest(attempts, row.lastAttemptAt)
            && IsLatestSuccess(attempts, row.lastSuccessAt)
            && deciding < |attempts| && IsDeciding(attempts, deciding)
            && row.lastError == Inserted(attempts[deciding]).lastError
  {
    hide IsLatest, IsLatestSuccess, IsDeciding;
    var last := |attempts| - 1;
    var init, attempt := attempts[..last], attempts[last];
    assert attempts == init + [attempt];
    deciding := last;
    if init == [] {
      OneRecord(attempt);
    } else {
      var before := FoldMeans(init);
      var row := Fold(init).value;
      LatestStep(init, attempt, row.lastAttemptAt);
      LatestSuccessStep(init, attempt, row.lastSuccessAt);
      DecidingStep(init, attempt, before, row.lastAttemptAt);
      if attempt.finishedAt < row.lastAttemptAt {
        deciding := before;
      }
    }
  }

  lemma OneRecord(attempt: Attempt)
    ensures IsLatest([attempt], attempt.finishedAt) && IsDeciding([attempt], 0)
    ensures IsLatestSuccess([attempt], Inserted(attempt).lastSuccessAt)
  {
    assert attempt in [attempt];
  }

  lemma LatestStep(init: seq<Attempt>, attempt: Attempt, at: Instant)
    requires IsLatest(init, at)
    ensures IsLatest(init + [attempt], Max(at, attempt.finishedAt))
  {
    var a :| a in init && a.finishedAt == at;
    assert a in init + [attempt] && attempt in init + [attempt];
  }

  lemma LatestSuccessStep(init: seq<Attempt>, attempt: Attempt, at: Option<Instant>)
    requires IsLatestSuccess(init, at)
    ensures var added := Inserted(attempt).lastSuccessAt;
            IsLatestSuccess(init + [attempt],
                            if at.None? then added else if added.None? then at else Some(Max(at.value, added.value)))
  {
    assert attempt in init + [attempt];
    if at.Some? {
      var a :| a in init && a.ok && a.finishedAt == at.value;
      assert a in init + [attempt];
    }
  }

  lemma DecidingStep(init: seq<Attempt>, attempt: Attempt, before: nat, at: Instant)
    requires IsDeciding(init, before) && IsLatest(init, at)
    ensures init[before].finishedAt == at
    ensures IsDeciding(init + [attempt], if attempt.finishedAt < at then before else |init|)
  {
    var a :| a in init && a.finishedAt == at;
    assert init[before] in init;
    var all := init + [attempt];
    LatestStep(init, attempt, at);
    assert all[before] == init[before];
  }

  /** The order in which the same records were written matters to neither time. */
  lemma OrderDoesNotMatter(a: seq<Attempt>, b: seq<Attempt>)
    requires a != [] && b != [] && forall x :: x in a <==> x in b
    ensures Fold(a).value.lastAttemptAt == Fold(b).value.lastAttemptAt
    ensures Fold(a).value.lastSuccessAt == Fold(b).value.lastSuccessAt
  {
    var i := FoldMeans(a);
    var j := FoldMeans(b);
  }

  class Store {
    var rows: map<string, Row>
    /** Every record that was accepted, per playlist. */
    ghost var written: map<string, seq<Attempt>>

    constructor ()
      ensures Valid() && rows == map[]
    {
      rows, written := map[], map[];
    }

    ghost predicate Valid()
      reads this
    {
      && written.Keys == rows.Keys
      && forall id :: id in rows ==> Fold(written[id]) == Some(rows[id])
    }

    method RecordPlaylistState(id: string, attempt: Attempt) returns (o: Outcome<Error>)
      requires Valid()
      modifies this
      ensures Valid()
      ensures o.Fail? <==> attempt.finishedAt < attempt.startedAt
      ensures o.Fail? ==> rows == old(rows) && written == old(written)
      ensures o.Pass? ==>
                var before := if id in old(written) then old(written)[id] else [];
                written == old(written)[id := before + [attempt]]
    {
      if attempt.finishedAt < attempt.startedAt {
        return Fail(Invalid);
      }
      var excluded := Inserted(attempt);
      ghost var before := if id in written then written[id] else [];
      assert (before + [attempt])[..|before|] == before;
      rows := rows[id := if id in rows then Merge(rows[id], excluded) else excluded];
      written := written[id := before + [attempt]];
      return Pass;
    }

    /** What is read back for a playlist with records: both latest times, and the deciding record's error. */
    method GetPlaylistState(id: string) returns (row: Option<Row>)
      requires Valid()
      ensures row.None? <==> id !in written
      ensures row.Some? ==>
                && IsLatest(written[id], row.value.lastAttemptAt)
                && IsLatestSuccess(written[id], row.value.lastSuccessAt)
                && exists i: nat :: IsDeciding(written[id], i)
                                    && row.value.lastError == Inserted(written[id][i]).lastError
    {
      if id !in rows {
        return None;
      }
      ghost var deciding := FoldMeans(written[id]);
      return Some(rows[id]);
    }
  }
}
