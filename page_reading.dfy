/** Reading the stored OCR result of each page of a completed file: fetch the
    object from the result bucket, decode it as UTF-8 JSON and take its
    "text" entry. The first failure aborts the whole read. */
module PageReading {
  import opened Records
  import opened PageOrder

  /** A JSON value, as far as the reader looks at it. */
  datatype JsonValue = JsonString(s: string) | JsonOther

  /** What the result bucket holds under a key: a JSON object, a JSON
      document that is not an object, bytes that are UTF-8 but not JSON, or
      bytes that are not UTF-8. A key absent from the bucket is a missing
      object. */
  datatype StoredObject =
    | JsonObject(fields: map<string, JsonValue>)
    | JsonNonObject
    | NotJson
    | NotUtf8

  type ResultStore = map<string, StoredObject>

  /** One page row read back. The "text" entry defaults to the empty string;
      a "text" entry that is not a string is refused by the page schema. */
  function ReadOne(row: PageRow, store: ResultStore): (r: Result<PageResult, ErrorKind>)
    ensures r.Ok? <==>
      row.resultPath in store && store[row.resultPath].JsonObject?
      && ("text" in store[row.resultPath].fields ==> store[row.resultPath].fields["text"].JsonString?)
    ensures r.Ok? ==> r.value.pageNumber == row.pageNumber
    ensures r.Ok? && "text" !in store[row.resultPath].fields ==> r.value.text == ""
    ensures r.Ok? && "text" in store[row.resultPath].fields ==>
      r.value.text == store[row.resultPath].fields["text"].s
    ensures r == Err(S3Error) <==> row.resultPath !in store
    ensures r == Err(JsonDecodeError) <==> row.resultPath in store && store[row.resultPath].NotJson?
  {
    if row.resultPath !in store then Err(S3Error)
    else
      match store[row.resultPath]
      case NotUtf8 => Err(OtherError)
      case NotJson => Err(JsonDecodeError)
      case JsonNonObject => Err(OtherError)
      case JsonObject(fields) =>
        if "text" !in fields then Ok(PageResult(row.pageNumber, ""))
        else match fields["text"]
          case JsonString(t) => Ok(PageResult(row.pageNumber, t))
          case JsonOther => Err(ValidationError)
  }

  /** Reading the rows in order, stopping at the first row that fails. */
  function ReadPages(rows: seq<PageRow>, store: ResultStore): Result<seq<PageResult>, ErrorKind>
  {
    if rows == [] then Ok([])
    else
      match ReadPages(rows[..|rows| - 1], store)
      case Err(e) => Err(e)
      case Ok(done) =>
        match ReadOne(rows[|rows| - 1], store)
        case Err(e) => Err(e)
        case Ok(p) => Ok(done + [p])
  }

  /** All or nothing: the read succeeds exactly when every row can be read,
      and then it holds one entry per row, in the rows' order. */
  lemma {:induction false} ReadPagesAllOrNothing(rows: seq<PageRow>, store: ResultStore)
    ensures ReadPages(rows, store).Ok? <==> forall k :: 0 <= k < |rows| ==> ReadOne(rows[k], store).Ok?
    ensures ReadPages(rows, store).Ok? ==>
      |ReadPages(rows, store).value| == |rows|
      && forall k :: 0 <= k < |rows| ==> ReadPages(rows, store).value[k] == ReadOne(rows[k], store).value
  {
    if rows != [] {
      var init := rows[..|rows| - 1];
      ReadPagesAllOrNothing(init, store);
      assert forall k :: 0 <= k < |init| ==> init[k] == rows[k];
    }
  }

  /** A failed read reports the error of the first row that cannot be read. */
  lemma {:induction false} ReadPagesFirstError(rows: seq<PageRow>, store: ResultStore, i: nat)
    requires i < |rows| && ReadOne(rows[i], store).Err?
    requires forall k :: 0 <= k < i ==> ReadOne(rows[k], store).Ok?
    ensures ReadPages(rows, store) == Err(ReadOne(rows[i], store).error)
  {
    var init := rows[..|rows| - 1];
    if i == |rows| - 1 {
      ReadPagesAllOrNothing(init, store);
    } else {
      ReadPagesFirstError(init, store, i);
    }
  }

  /** Once a prefix fails, the whole read fails the same way. */
  lemma {:induction false} ReadPagesErrorPersists(rows: seq<PageRow>, store: ResultStore, i: nat)
    requires i <= |rows| && ReadPages(rows[..i], store).Err?
    ensures ReadPages(rows, store) == ReadPages(rows[..i], store)
    decreases |rows| - i
  {
    if i < |rows| {
      assert rows[..i + 1][..i] == rows[..i];
      ReadPagesErrorPersists(rows, store, i + 1);
    } else {
      assert rows[..i] == rows;
    }
  }

  /** The reading loop: go through the rows in order, appending one entry
      per row, and give up on the first failure without a partial list. */
  method CollectPageResults(rows: seq<PageRow>, store: ResultStore)
    returns (r: Result<seq<PageResult>, ErrorKind>)
    ensures r == ReadPages(rows, store)
  {
    var results: seq<PageResult> := [];
    var i := 0;
    while i < |rows|
      invariant 0 <= i <= |rows|
      invariant ReadPages(rows[..i], store) == Ok(results)
    {
      var one := ReadOne(rows[i], store);
      assert rows[..i + 1][..i] == rows[..i];
      if one.Err? {
        ReadPagesErrorPersists(rows, store, i + 1);
        return Err(one.error);
      }
      results := results + [one.value];
      i := i + 1;
    }
    assert rows[..i] == rows;
    return Ok(results);
  }

  /** The results of a completed file: its page rows sorted by page number,
      then read. */
  function CompletedResults(pages: seq<PageRow>, store: ResultStore): Result<seq<PageResult>, ErrorKind>
  {
    ReadPages(SortByPage(pages), store)
  }

  /** The results of a completed file are produced exactly when every page
      row can be read, hold one entry per row in non-decreasing page-number
      order, carry the page numbers of the rows, and each entry is its row's
      stored text. */
  lemma CompletedResultsSpec(pages: seq<PageRow>, store: ResultStore)
    ensures CompletedResults(pages, store).Ok? <==>
      forall k :: 0 <= k < |pages| ==> ReadOne(pages[k], store).Ok?
    ensures CompletedResults(pages, store).Ok? ==>
      var rs := CompletedResults(pages, store).value;
      && |rs| == |pages|
      && (forall i, j :: 0 <= i < j < |rs| ==> rs[i].pageNumber <= rs[j].pageNumber)
      && (forall k :: 0 <= k < |rs| ==> ReadOne(SortByPage(pages)[k], store) == Ok(rs[k]))
  {
    var sorted := SortByPage(pages);
    ReadPagesAllOrNothing(sorted, store);
    SortKeepsRows(pages);
    assert (forall k :: 0 <= k < |pages| ==> ReadOne(pages[k], store).Ok?)
      ==> (forall k :: 0 <= k < |sorted| ==> ReadOne(sorted[k], store).Ok?) by {
      forall k | 0 <= k < |sorted| ensures sorted[k] in pages { }
    }
  }

  /** A completed file whose rows, in page order, read up to a row whose
      object is missing: its whole read fails with the storage error. */
  lemma {:induction false} MissingResultAbortsRead(pages: seq<PageRow>, store: ResultStore, i: nat)
    requires i < |pages| && SortByPage(pages)[i].resultPath !in store
    requires forall k :: 0 <= k < i ==> ReadOne(SortByPage(pages)[k], store).Ok?
    ensures CompletedResults(pages, store) == Err(S3Error)
  {
    ReadPagesFirstError(SortByPage(pages), store, i);
  }
}
