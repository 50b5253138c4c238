/**
 * What the creation loop of resolveParameter does with the replies of
 * createUniqueNamespace: request 1, 2, ... up to the annotated count, stopping
 * at the first request that fails.
 */
module Provisioning {
  import opened Wrappers
  import opened LogLayout

  /** The number of rounds `for (int i = 1; i <= count; i++)` runs when none fails. */
  function Max0(count: int): nat
  {
    if count < 0 then 0 else count
  }

  /**
   * What the loop produced: the names minted, in order; the createUniqueNamespace
   * calls made; and the error of the failed call that ended it, if one did.
   */
  datatype Creation = Creation(names: seq<string>, calls: seq<Effect>, failure: Option<string>)

  /** The loop from request `from` to request `count`. */
  function CreateFrom(mint: int -> Result<string, string>, from: int, count: int): Creation
    decreases count - from
  {
    if from > count then Creation([], [], None)
    else
      var reply := mint(from);
      if reply.Failure? then Creation([], [CreateNamespace(reply)], Some(reply.error))
      else
        var rest := CreateFrom(mint, from + 1, count);
        Creation([reply.value] + rest.names, [CreateNamespace(reply)] + rest.calls, rest.failure)
  }

  /** A loop part way through: what it has so far, followed by what the rest of the loop gives. */
  function Resume(names: seq<string>, calls: seq<Effect>, rest: Creation): Creation
  {
    Creation(names + rest.names, calls + rest.calls, rest.failure)
  }

  /** Past the count the loop stops with no failure. */
  lemma ResumeDone(mint: int -> Result<string, string>, from: int, count: int,
                   names: seq<string>, calls: seq<Effect>)
    requires from > count
    ensures Resume(names, calls, CreateFrom(mint, from, count)) == Creation(names, calls, None)
  {
  }

  /** A failed request ends the loop, after its call. */
  lemma ResumeFailed(mint: int -> Result<string, string>, from: int, count: int,
                     names: seq<string>, calls: seq<Effect>)
    requires from <= count && mint(from).Failure?
    ensures Resume(names, calls, CreateFrom(mint, from, count))
      == Creation(names, calls + [CreateNamespace(mint(from))], Some(mint(from).error))
  {
  }

  /** A successful request adds its name and its call, and the loop goes on. */
  lemma ResumeMinted(mint: int -> Result<string, string>, from: int, count: int,
                     names: seq<string>, calls: seq<Effect>)
    requires from <= count && mint(from).Success?
    ensures Resume(names, calls, CreateFrom(mint, from, count))
      == Resume(names + [mint(from).value], calls + [CreateNamespace(mint(from))], CreateFrom(mint, from + 1, count))
  {
    var rest := CreateFrom(mint, from + 1, count);
    assert names + ([mint(from).value] + rest.names) == (names + [mint(from).value]) + rest.names;
    assert calls + ([CreateNamespace(mint(from))] + rest.calls) == (calls + [CreateNamespace(mint(from))]) + rest.calls;
  }

  /** The whole loop: requests 1..count. */
  function Create(mint: int -> Result<string, string>, count: int): Creation
  {
    CreateFrom(mint, 1, count)
  }

  /**
   * The loop from request `from` on, described without the loop: the names are
   * the replies of consecutive successful requests from `from` on; all requests up
   * to `count` succeeded exactly when nothing failed; a failure is the reply of the
   * request right after the names; and one call was made per name, plus the
   * failing one.
   */
  lemma {:induction false} CreateFromMeaning(mint: int -> Result<string, string>, from: int, count: int)
    ensures var c := CreateFrom(mint, from, count);
      |c.names| <= Max0(count - from + 1)
      && (forall i :: 0 <= i < |c.names| ==> mint(from + i) == Success(c.names[i]))
      && (c.failure.None? <==> |c.names| == Max0(count - from + 1))
      && (c.failure.Some? ==> mint(from + |c.names|) == Failure(c.failure.value))
      && |c.calls| == (if c.failure.Some? then |c.names| + 1 else |c.names|)
      && (forall i :: 0 <= i < |c.calls| ==> c.calls[i] == CreateNamespace(mint(from + i)))
    decreases count - from
  {
    if from <= count && mint(from).Success? {
      CreateFromMeaning(mint, from + 1, count);
      var c, rest := CreateFrom(mint, from, count), CreateFrom(mint, from + 1, count);
      forall i | 0 < i < |c.names| ensures mint(from + i) == Success(c.names[i]) {
        assert c.names[i] == rest.names[i - 1];
      }
      forall i | 0 < i < |c.calls| ensures c.calls[i] == CreateNamespace(mint(from + i)) {
        assert c.calls[i] == rest.calls[i - 1];
      }
    }
  }

  /** When every request succeeds, exactly max(count, 0) namespaces are minted, in request order. */
  lemma CreateAll(mint: int -> Result<string, string>, count: int)
    requires forall i :: 1 <= i <= count ==> mint(i).Success?
    ensures var c := Create(mint, count);
      c.failure.None? && |c.names| == Max0(count) && |c.calls| == Max0(count)
      && forall i :: 0 <= i < |c.names| ==> c.names[i] == mint(i + 1).value
  {
    CreateFromMeaning(mint, 1, count);
  }

  /**
   * The creation loop of resolveParameter: requests 1..count in order, collecting
   * the names (the local ArrayList) and the calls made, until a request fails
   * (assertDoesNotThrow then throws).
   */
  method MintNamespaces(count: int, mint: int -> Result<string, string>)
    returns (names: seq<string>, calls: seq<Effect>, failure: Option<string>)
    ensures Creation(names, calls, failure) == Create(mint, count)
  {
    names, calls := [], [];
    var i := 1;
    assert Resume([], [], CreateFrom(mint, 1, count)) == Create(mint, count);
    while i <= count
      invariant Resume(names, calls, CreateFrom(mint, i, count)) == Create(mint, count)
      decreases count - i
    {
      var reply := mint(i);
      if reply.Failure? {
        ResumeFailed(mint, i, count, names, calls);
        return names, calls + [CreateNamespace(reply)], Some(reply.error);
      }
      ResumeMinted(mint, i, count, names, calls);
      calls := calls + [CreateNamespace(reply)];
      names := names + [reply.value];
      i := i + 1;
    }
    ResumeDone(mint, i, count, names, calls);
    failure := None;
  }

  /** The info record logged when namespace `name` has been created. */
  function CreatedRecord(name: string): LogRecord
  {
    LogRecord(Info, "Created a new namespace called " + name)
  }

  /** The info records logged as namespaces are created. */
  function CreatedRecords(names: seq<string>): seq<LogRecord>
  {
    seq(|names|, i requires 0 <= i < |names| => CreatedRecord(names[i]))
  }
}
