/**
 * The response side of net/http as rest uses it: a ResponseWriter is modelled
 * by the ordered trace of calls made on it. Which of the headers the handler
 * set go out follows from the trace: the status and headers are frozen by the
 * first WriteHeader or Write, and a header set after that point is never sent.
 * Headers the server adds itself (such as a sniffed Content-Type on the first
 * Write) belong to the transport and are not modelled.
 */
module Http {

  /** What the error of a handler call does when it serves the response itself. */
  datatype ErrorHandler = ErrorHandler(id: nat)

  datatype Event =
    | HeaderWritten(code: int)              // w.WriteHeader(code)
    | BodyWritten(data: string)             // w.Write(data)
    | HeaderSet(key: string, value: string) // w.Header().Set(key, value)
    | ErrorReplied(msg: string, code: int)  // http.Error(w, msg, code)
    | Delegated(h: ErrorHandler)            // h.ServeHTTP(w, r)

  const StatusOK := 200
  const StatusMethodNotAllowed := 405
  const StatusInternalServerError := 500

  class ResponseWriter {
    var events: seq<Event>

    constructor ()
      ensures events == []
    {
      events := [];
    }

    method WriteHeader(code: int)
      modifies this
      ensures events == old(events) + [HeaderWritten(code)]
    {
      events := events + [HeaderWritten(code)];
    }

    method Write(data: string)
      modifies this
      ensures events == old(events) + [BodyWritten(data)]
    {
      events := events + [BodyWritten(data)];
    }

    method SetHeader(key: string, value: string)
      modifies this
      ensures events == old(events) + [HeaderSet(key, value)]
    {
      events := events + [HeaderSet(key, value)];
    }

    /** http.Error: a plain-text reply with the given status. */
    method Error(msg: string, code: int)
      modifies this
      ensures events == old(events) + [ErrorReplied(msg, code)]
    {
      events := events + [ErrorReplied(msg, code)];
    }

    /** Calls made on the writer by code the writer was handed to, in their order. */
    method Record(calls: seq<Event>)
      modifies this
      ensures events == old(events) + calls
    {
      events := events + calls;
    }

    /** An error that is itself an http.Handler answers the request. */
    method Delegate(h: ErrorHandler)
      modifies this
      ensures events == old(events) + [Delegated(h)]
    {
      events := events + [Delegated(h)];
    }
  }

  /** The call freezes the status line and the headers (a delegated handler writes its own reply). */
  predicate Commits(e: Event)
  {
    !e.HeaderSet?
  }

  /** The handler-set headers that are sent for the trace: those set before the first committing call. */
  function SentHeaders(events: seq<Event>): (h: map<string, string>)
    ensures forall k :: k in h ==> exists i :: 0 <= i < |events| && events[i] == HeaderSet(k, h[k])
    decreases |events|
  {
    if events == [] then map[]
    else if Commits(events[0]) then map[]
    else
      var rest := SentHeaders(events[1..]);
      if events[0].HeaderSet? && events[0].key !in rest then
        rest[events[0].key := events[0].value]
      else
        rest
  }

  /** No call among events[0..j] commits the reply. */
  predicate UncommittedThrough(events: seq<Event>, j: nat)
  {
    j < |events| && forall x :: 0 <= x <= j ==> !Commits(events[x])
  }

  /** No call before the first commit sets header `k`. */
  predicate NeverSetBeforeCommit(events: seq<Event>, k: string)
  {
    forall j :: 0 <= j < |events| && UncommittedThrough(events, j) ==> !(events[j].HeaderSet? && events[j].key == k)
  }

  /** Dropping the first call, when it does not commit, shifts the uncommitted stretch by one. */
  lemma UncommittedShift(events: seq<Event>, j: nat)
    requires events != [] && !Commits(events[0])
    ensures UncommittedThrough(events[1..], j) <==> UncommittedThrough(events, j + 1)
  {
    if UncommittedThrough(events, j + 1) {
      forall x | 0 <= x <= j ensures !Commits(events[1..][x]) {
        assert events[1..][x] == events[x + 1];
      }
    }
    if UncommittedThrough(events[1..], j) {
      forall x | 0 <= x <= j + 1 ensures !Commits(events[x]) {
        if x > 0 {
          assert events[x] == events[1..][x - 1];
        }
      }
    }
  }

  /** A header no call sets before the first commit is not sent. */
  lemma {:induction false} UnsetNotSent(events: seq<Event>, k: string)
    requires NeverSetBeforeCommit(events, k)
    ensures k !in SentHeaders(events)
    decreases |events|
  {
    if events != [] && !Commits(events[0]) {
      forall j | 0 <= j < |events| - 1 && UncommittedThrough(events[1..], j)
        ensures !(events[1..][j].HeaderSet? && events[1..][j].key == k)
      {
        UncommittedShift(events, j);
      }
      UncommittedShift(events, 0);
      assert UncommittedThrough(events, 0);
      UnsetNotSent(events[1..], k);
    }
  }

  /**
   * A header set before the first commit is sent, with the value of the last
   * such set of that key.
   */
  lemma {:induction false} SetBeforeCommitSent(events: seq<Event>, i: nat)
    requires UncommittedThrough(events, i) && events[i].HeaderSet?
    requires NeverSetBeforeCommit(events[i + 1..], events[i].key)
    ensures events[i].key in SentHeaders(events) && SentHeaders(events)[events[i].key] == events[i].value
    decreases i
  {
    var k := events[i].key;
    var rest := events[1..];
    assert !Commits(events[0]);
    if i == 0 {
      assert events[i + 1..] == rest;
      UnsetNotSent(rest, k);
    } else {
      UncommittedShift(events, i - 1);
      assert rest[i - 1] == events[i] && rest[i..] == events[i + 1..];
      SetBeforeCommitSent(rest, i - 1);
    }
  }
}
