/**
 * The middleware's `responseWriter`: a wrapper around an http.ResponseWriter that remembers
 * the last status code written and counts the bytes the inner writer accepted.
 */
module Middleware {

  /**
   * The wrapped writer, seen only through what it was given. Its Write may accept any prefix
   * of the buffer and reports an error whenever it accepts less than all of it, as io.Writer
   * requires.
   */
  class InnerWriter {
    var codes: seq<int>
    var body: seq<bv8>

    constructor ()
      ensures codes == [] && body == []
    {
      codes := [];
      body := [];
    }

    method WriteHeader(code: int)
      modifies this
      ensures codes == old(codes) + [code] && body == old(body)
    {
      codes := codes + [code];
    }

    method Write(b: seq<bv8>) returns (n: int, failed: bool)
      modifies this
      ensures 0 <= n <= |b| && (n < |b| ==> failed)
      ensures body == old(body) + b[..n] && codes == old(codes)
    {
      n :| 0 <= n <= |b|;
      var f: bool :| n < |b| ==> f;
      failed := f;
      body := body + b[..n];
    }
  }

  /** One call of Write: how many bytes were offered and how many the inner writer took. */
  datatype WriteRecord = WriteRecord(offered: nat, accepted: nat)

  function Accepted(history: seq<WriteRecord>): nat {
    if history == [] then 0 else Accepted(history[..|history| - 1]) + history[|history| - 1].accepted
  }

  function Offered(history: seq<WriteRecord>): nat {
    if history == [] then 0 else Offered(history[..|history| - 1]) + history[|history| - 1].offered
  }

  predicate Plausible(history: seq<WriteRecord>) {
    forall i :: 0 <= i < |history| ==> history[i].accepted <= history[i].offered
  }

  /** No more bytes are counted than were offered, when every write takes at most what it is given. */
  lemma {:induction false} AcceptedAtMostOffered(history: seq<WriteRecord>)
    requires Plausible(history)
    ensures Accepted(history) <= Offered(history)
  {
    if history != [] {
      var init := history[..|history| - 1];
      assert Plausible(init) by {
        forall i | 0 <= i < |init| ensures init[i].accepted <= init[i].offered {
          assert init[i] == history[i];
        }
      }
      AcceptedAtMostOffered(init);
    }
  }

  lemma AcceptedAppend(history: seq<WriteRecord>, w: WriteRecord)
    ensures Accepted(history + [w]) == Accepted(history) + w.accepted
    ensures Offered(history + [w]) == Offered(history) + w.offered
  {
  }

  class ResponseWriter {
    const inner: InnerWriter
    var status: int
    var bytesWritten: int
    /** Every Write so far, in order. */
    ghost var history: seq<WriteRecord>

    ghost predicate Valid()
      reads this
    {
      Plausible(history) && bytesWritten == Accepted(history)
    }

    /** NewWrapResponseWriter: status starts at 200 and nothing has been counted. */
    constructor (w: InnerWriter)
      ensures Valid() && inner == w
      ensures status == 200 && bytesWritten == 0 && history == []
    {
      inner := w;
      status := 200;
      bytesWritten := 0;
      history := [];
    }

    /** Records the code and forwards it; the byte count is untouched. */
    method WriteHeader(code: int)
      requires Valid()
      modifies this, inner
      ensures Valid()
      ensures status == code && bytesWritten == old(bytesWritten) && history == old(history)
      ensures inner.codes == old(inner.codes) + [code] && inner.body == old(inner.body)
    {
      status := code;
      inner.WriteHeader(code);
    }

    /** Forwards b and adds the accepted count n, error or not; the status is untouched. */
    method Write(b: seq<bv8>) returns (n: int, failed: bool)
      requires Valid()
      modifies this, inner
      ensures Valid()
      ensures 0 <= n <= |b| && (n < |b| ==> failed)
      ensures bytesWritten == old(bytesWritten) + n && status == old(status)
      ensures history == old(history) + [WriteRecord(|b|, n)]
      ensures inner.body == old(inner.body) + b[..n] && inner.codes == old(inner.codes)
    {
      n, failed := inner.Write(b);
      bytesWritten := bytesWritten + n;
      AcceptedAppend(history, WriteRecord(|b|, n));
      history := history + [WriteRecord(|b|, n)];
    }

    method Status() returns (s: int)
      ensures s == status
    {
      s := status;
    }

    /** The running total, which never exceeds the number of bytes offered to Write. */
    method BytesWritten() returns (n: int)
      requires Valid()
      ensures n == bytesWritten && n == Accepted(history)
      ensures 0 <= n <= Offered(history)
    {
      n := bytesWritten;
      AcceptedAtMostOffered(history);
    }
  }
}
