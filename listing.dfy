/** The list pipeline shared by the list handlers: stream the query's documents through the
    read check and the decorator, then window the accepted ones into a page. */
module Listing {
  import opened Wrappers
  import opened Text
  import opened Seqs
  import opened Models

  /** What `util.NewPagination(c, count)` answers. `outOfRange` is its `HasPage()`, which is
      true for a page that holds no results; its arithmetic is not part of this model. */
  datatype Pagination = Pagination(
    outOfRange: bool, page: int, skip: int, end: int, next: Option<string>, previous: Option<string>)

  /** The envelope `models.Response{Count, Next, Previous, Results}`. */
  datatype Page<T> = Page(count: nat, next: Option<string>, previous: Option<string>, results: seq<T>)

  /** The pagination's window lies within the count whenever the page is in range
      (otherwise the `results[Skip():End()]` slice would not exist). */
  ghost predicate WindowsFit(paginate: nat -> Pagination) {
    forall n: nat :: !paginate(n).outOfRange ==> 0 <= paginate(n).skip <= paginate(n).end <= n
  }

  /** What reading `cursor` to the end yields: the decorated documents the oracle lets
      through, in cursor order, or None when one of them fails to decorate. */
  function Streamed<T>(cursor: seq<T>, canRead: T -> bool, decorate: T -> Option<Meta>): Option<seq<Decorated<T>>>
    decreases |cursor|
  {
    if cursor == [] then Some([])
    else
      match Streamed(cursor[..|cursor| - 1], canRead, decorate)
      case None => None
      case Some(acc) =>
        var x := cursor[|cursor| - 1];
        if !canRead(x) then Some(acc)
        else match decorate(x)
          case None => None
          case Some(m) => Some(acc + [Decorated(x, m)])
  }

  lemma {:induction false} StreamedStaysFailed<T>(cursor: seq<T>, j: nat, canRead: T -> bool, decorate: T -> Option<Meta>)
    requires j <= |cursor|
    requires Streamed(cursor[..j], canRead, decorate).None?
    ensures Streamed(cursor, canRead, decorate).None?
    decreases |cursor|
  {
    if j < |cursor| {
      var init := cursor[..|cursor| - 1];
      assert init[..j] == cursor[..j];
      StreamedStaysFailed(init, j, canRead, decorate);
    } else {
      assert cursor[..j] == cursor;
    }
  }

  /** The stream succeeds exactly when every readable document decorates. */
  lemma {:induction false} StreamedSucceeds<T>(cursor: seq<T>, canRead: T -> bool, decorate: T -> Option<Meta>)
    ensures Streamed(cursor, canRead, decorate).Some?
            <==> forall k :: 0 <= k < |cursor| && canRead(cursor[k]) ==> decorate(cursor[k]).Some?
    decreases |cursor|
  {
    if cursor != [] {
      var init, x := cursor[..|cursor| - 1], cursor[|cursor| - 1];
      StreamedSucceeds(init, canRead, decorate);
      assert forall k :: 0 <= k < |init| ==> init[k] == cursor[k];
      if Streamed(init, canRead, decorate).None? {
        var k :| 0 <= k < |init| && canRead(init[k]) && decorate(init[k]).None?;
        assert cursor[k] == init[k];
      }
    }
  }

  /** A successful stream yields exactly the readable documents, in cursor order, each with
      its own decoration: no document the oracle rejects is ever listed. */
  lemma {:induction false} StreamedSpec<T>(cursor: seq<T>, canRead: T -> bool, decorate: T -> Option<Meta>)
    requires Streamed(cursor, canRead, decorate).Some?
    ensures var listed := Streamed(cursor, canRead, decorate).value;
              && Records(listed) == Filter(cursor, canRead)
              && |listed| == |Filter(cursor, canRead)|
              && (forall k :: 0 <= k < |listed| ==> canRead(listed[k].record))
              && (forall k :: 0 <= k < |listed| ==> decorate(listed[k].record) == Some(listed[k].meta))
    decreases |cursor|
  {
    if cursor != [] {
      var init, x := cursor[..|cursor| - 1], cursor[|cursor| - 1];
      var acc := Streamed(init, canRead, decorate).value;
      StreamedSpec(init, canRead, decorate);
      if canRead(x) {
        RecordsAppend(acc, [Decorated(x, decorate(x).value)]);
      }
    }
  }

  /** The loop of a list handler: `for iter.Next(&tmp) { if !read(tmp) { continue }; if err :=
      decorate(&tmp); err != nil { return error }; list = append(list, tmp) }`. */
  method Stream<T>(cursor: seq<T>, canRead: T -> bool, decorate: T -> Option<Meta>)
    returns (listed: Option<seq<Decorated<T>>>)
    ensures listed == Streamed(cursor, canRead, decorate)
  {
    var acc: seq<Decorated<T>> := [];
    var i := 0;
    while i < |cursor|
      invariant 0 <= i <= |cursor|
      invariant Streamed(cursor[..i], canRead, decorate) == Some(acc)
    {
      var x := cursor[i];
      assert cursor[..i + 1][..i] == cursor[..i];
      if !canRead(x) {
        i := i + 1;
        continue;
      }
      var m := decorate(x);
      if m.None? {
        StreamedStaysFailed(cursor, i + 1, canRead, decorate);
        return None;
      }
      acc := acc + [Decorated(x, m.value)];
      i := i + 1;
    }
    assert cursor[..i] == cursor;
    return Some(acc);
  }

  /** The detail of the 404 a list handler answers for a page that holds no results. */
  function InvalidPage(page: int): string {
    "Invalid page " + IntToString(page) + ": That page contains no results."
  }

  /** The tail of a list handler: 404 for a page out of range, otherwise the window of the
      list, with `count` the length of the whole list and the pagination's links. */
  function Paginate<T>(list: seq<T>, pg: Pagination): (resp: Response<Page<T>>)
    requires !pg.outOfRange ==> 0 <= pg.skip <= pg.end <= |list|
    ensures pg.outOfRange ==> resp == Response(StatusNotFound, Detail(InvalidPage(pg.page)))
    ensures !pg.outOfRange ==>
              && resp.status == StatusOK && resp.body.Payload?
              && resp.body.value.count == |list|
              && resp.body.value.next == pg.next && resp.body.value.previous == pg.previous
              && resp.body.value.results == list[pg.skip..pg.end]
  {
    if pg.outOfRange then
      Response(StatusNotFound, Detail(InvalidPage(pg.page)))
    else
      Response(StatusOK, Payload(Page(|list|, pg.next, pg.previous, list[pg.skip..pg.end])))
  }

  /** The documents `iter.Next` hands out. `breaksAt == Some(n)` is a storage error met
      after `n` documents: `iter.Next` ends the loop on it and `iter.Close` returns it; an
      `n` at least the number of documents is an error met only after the last one, or by
      the close itself. */
  function Delivered<T>(docs: seq<T>, breaksAt: Option<nat>): (r: seq<T>)
    ensures r <= docs
    ensures |r| < |docs| <==> breaksAt.Some? && breaksAt.value < |docs|
    ensures |r| < |docs| ==> |r| == breaksAt.value
  {
    if breaksAt.Some? && breaksAt.value < |docs| then docs[..breaksAt.value] else docs
  }

  /** How the loop of a list handler and the `iter.Close()` after it end. */
  datatype StreamEnd<T> = DecorationFailed | CloseFailed | Listed(list: seq<T>)

  /** What the loop and the close yield: a decoration failure among the delivered documents
      first, then the cursor's storage error, otherwise the whole list. */
  function Drains<T>(docs: seq<T>, breaksAt: Option<nat>, canRead: T -> bool, decorate: T -> Option<Meta>): StreamEnd<Decorated<T>> {
    match Streamed(Delivered(docs, breaksAt), canRead, decorate)
    case None => DecorationFailed
    case Some(listed) => if breaksAt.Some? then CloseFailed else Listed(listed)
  }

  /** The loop and the close of a list handler as written: `iter.Close()` runs only once the
      loop has ended, so the return on a decoration failure leaves the cursor open. `closed`
      tells whether the close ran. */
  method Drain<T>(docs: seq<T>, breaksAt: Option<nat>, canRead: T -> bool, decorate: T -> Option<Meta>)
    returns (end: StreamEnd<Decorated<T>>, closed: bool)
    ensures end == Drains(docs, breaksAt, canRead, decorate)
    ensures closed <==> !end.DecorationFailed?
  {
    var listed := Stream(Delivered(docs, breaksAt), canRead, decorate);
    if listed.None? {
      return DecorationFailed, false;
    }
    closed := true;
    if breaksAt.Some? {
      return CloseFailed, closed;
    }
    end := Listed(listed.value);
  }

  /** The loop and the close as the cursor discipline intends (`defer iter.Close()`): the
      same outcome, with the cursor released on every exit. */
  method DrainIntended<T>(docs: seq<T>, breaksAt: Option<nat>, canRead: T -> bool, decorate: T -> Option<Meta>)
    returns (end: StreamEnd<Decorated<T>>, closed: bool)
    ensures end == Drains(docs, breaksAt, canRead, decorate)
    ensures closed
  {
    var listed := Stream(Delivered(docs, breaksAt), canRead, decorate);
    closed := true;
    if listed.None? {
      return DecorationFailed, closed;
    }
    if breaksAt.Some? {
      return CloseFailed, closed;
    }
    end := Listed(listed.value);
  }

  /** A readable delivered document that fails to decorate ends the stream in a decoration
      failure, whatever the documents around it: the exit on which `Drain` leaves the
      cursor open. */
  lemma DecorationFailureEndsStream<T>(docs: seq<T>, breaksAt: Option<nat>, canRead: T -> bool, decorate: T -> Option<Meta>, k: nat)
    requires k < |Delivered(docs, breaksAt)|
    requires canRead(Delivered(docs, breaksAt)[k]) && decorate(Delivered(docs, breaksAt)[k]).None?
    ensures Drains(docs, breaksAt, canRead, decorate) == DecorationFailed
  {
    StreamedSucceeds(Delivered(docs, breaksAt), canRead, decorate);
  }

  /** The response of a list handler once its stream ended: 500 with `decorateMessage` when a
      document failed to decorate, 500 with `closeMessage` when the cursor reported a storage
      error, otherwise the page of the whole list. */
  function ListOutcome<T>(end: StreamEnd<T>, paginate: nat -> Pagination,
                          decorateMessage: string, closeMessage: string): Response<Page<T>>
    requires WindowsFit(paginate)
  {
    match end
    case DecorationFailed => Failed(StatusInternalServerError, decorateMessage)
    case CloseFailed => Failed(StatusInternalServerError, closeMessage)
    case Listed(list) => Paginate(list, paginate(|list|))
  }

  lemma RecordsSlice<T>(ds: seq<Decorated<T>>, i: nat, j: nat)
    requires i <= j <= |ds|
    ensures Records(ds[i..j]) == Records(ds)[i..j]
  {
    assert |Records(ds[i..j])| == |Records(ds)[i..j]|;
    assert forall k :: 0 <= k < j - i ==> Records(ds[i..j])[k] == ds[i + k].record;
  }

  /** What a list handler answers. A readable delivered document that fails to decorate gives
      500 with `decorateMessage`, whatever follows it in the cursor. Otherwise a storage error
      gives 500 with `closeMessage`, also when a later document would fail to decorate. An
      unbroken cursor whose readable documents all decorate gives 404 with the page detail
      for a page out of range, and otherwise 200 with the page: the count of the readable
      documents, not of the matched ones, and a window of them in cursor order. */
  lemma ListOutcomeSpec<T>(docs: seq<T>, breaksAt: Option<nat>, canRead: T -> bool, decorate: T -> Option<Meta>,
                           paginate: nat -> Pagination, decorateMessage: string, closeMessage: string)
    requires WindowsFit(paginate)
    ensures var r := ListOutcome(Drains(docs, breaksAt, canRead, decorate), paginate, decorateMessage, closeMessage);
      var cut := Delivered(docs, breaksAt);
      var kept := Filter(docs, canRead);
      var pg := paginate(|kept|);
      && ((exists k :: 0 <= k < |cut| && canRead(cut[k]) && decorate(cut[k]).None?) ==>
            r == Failed(StatusInternalServerError, decorateMessage))
      && ((forall k :: 0 <= k < |cut| && canRead(cut[k]) ==> decorate(cut[k]).Some?) && breaksAt.Some? ==>
            r == Failed(StatusInternalServerError, closeMessage))
      && ((forall k :: 0 <= k < |docs| && canRead(docs[k]) ==> decorate(docs[k]).Some?) && breaksAt.None? ==>
            && (pg.outOfRange ==> r == Response(StatusNotFound, Detail(InvalidPage(pg.page))))
            && (!pg.outOfRange ==>
                  && r.status == StatusOK && r.body.Payload? && r.body.value.count == |kept|
                  && r.body.value.next == pg.next && r.body.value.previous == pg.previous
                  && Records(r.body.value.results) == kept[pg.skip..pg.end]))
      && (r.status == StatusOK <==>
            && breaksAt.None? && !pg.outOfRange
            && (forall k :: 0 <= k < |docs| && canRead(docs[k]) ==> decorate(docs[k]).Some?))
  {
    var cut := Delivered(docs, breaksAt);
    StreamedSucceeds(cut, canRead, decorate);
    var listed := Streamed(cut, canRead, decorate);
    if listed.Some? && breaksAt.None? {
      StreamedSpec(cut, canRead, decorate);
      var pg := paginate(|listed.value|);
      if !pg.outOfRange {
        RecordsSlice(listed.value, pg.skip, pg.end);
      }
    }
  }
}
