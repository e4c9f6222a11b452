/** Model of inserter.go: the ImportClient, an in-memory buffer of decoded
    records in front of a BigQuery table inserter. */
module Inserter {
  import opened Types

  /** The batches the sink has been handed after one more `Insert` on a
      buffer holding `records`: the whole buffer, and only when it is
      non-empty. */
  function PutLog(records: seq<Record>, calls: seq<seq<Record>>): seq<seq<Record>>
  {
    if records == [] then calls else calls + [records]
  }

  /** What `Insert` on a buffer holding `records` returns when the sink
      would answer `answer`. */
  function InsertError(records: seq<Record>, answer: Option<Cause>): Option<Cause>
  {
    if records == [] then None else answer
  }

  /** The table inserter as seen from outside: every batch handed to `Put`,
      in call order. Whether a call succeeds is decided by the service. */
  class Sink {
    var calls: seq<seq<Record>>

    constructor ()
      ensures calls == []
    {
      calls := [];
    }

    method Put(batch: seq<Record>, answer: Option<Cause>) returns (err: Option<Cause>)
      modifies this
      ensures calls == old(calls) + [batch]
      ensures err == answer
    {
      calls := calls + [batch];
      err := answer;
    }
  }

  class ImportClient {
    const sink: Sink
    var records: seq<Record>

    constructor (sink: Sink)
      ensures this.sink == sink
      ensures records == []
    {
      this.sink := sink;
      records := [];
    }

    /** Decodes one payload (`decoded` is the decoder's answer) and keeps the
        record; a payload that does not decode leaves the buffer as it was. */
    method Append(decoded: Result<Record, Cause>) returns (err: Option<Cause>)
      modifies this
      ensures decoded.Err? ==> err == Some(decoded.error) && records == old(records)
      ensures decoded.Ok? ==> err == None && records == old(records) + [decoded.value]
    {
      match decoded
      case Err(e) =>
        err := Some(e);
      case Ok(rec) =>
        records := records + [rec];
        err := None;
    }

    method Clear()
      modifies this
      ensures records == []
    {
      records := [];
    }

    /** Hands the whole buffer to the sink in one call, or does nothing when
        the buffer is empty. The buffer is never emptied, on success or on
        failure. */
    method Insert(answer: Option<Cause>) returns (err: Option<Cause>)
      modifies sink
      ensures records == old(records)
      ensures records == [] ==> err == None && sink.calls == old(sink.calls)
      ensures records != [] ==> err == answer && sink.calls == old(sink.calls) + [records]
    {
      if |records| == 0 {
        return None;
      }
      err := sink.Put(records, answer);
    }
  }

  /** Opens the BigQuery client (`clientErr` is its answer) and returns an
      importer with an empty buffer, or the client's error. */
  method NewImportClient(clientErr: Option<Cause>) returns (c: ImportClient?, err: Option<Cause>)
    ensures err == clientErr
    ensures clientErr.Some? ==> c == null
    ensures clientErr.None? ==> c != null && fresh(c) && fresh(c.sink)
    ensures clientErr.None? ==> c.records == [] && c.sink.calls == []
  {
    if clientErr.Some? {
      return null, clientErr;
    }
    var sink := new Sink();
    c := new ImportClient(sink);
    err := None;
  }

  /** Two inserts in a row hand the sink the same records twice. */
  method InsertTwice(imp: ImportClient, first: Option<Cause>, second: Option<Cause>)
    requires imp.records != []
    modifies imp.sink
    ensures imp.sink.calls == old(imp.sink.calls) + [imp.records, imp.records]
  {
    var _ := imp.Insert(first);
    var _ := imp.Insert(second);
  }
}
