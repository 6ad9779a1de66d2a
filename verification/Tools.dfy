/**
 * The confirmation-aware router (backend/pipa_core/tools.py).
 *
 * A tool's callables (validator, summary, preparer, handler) belong to other programs: what
 * they do during one call is a parameter, `Callbacks`. Every handler call is an event.
 */
module Tools {
  import opened Prelude
  import opened Confirmations

  datatype Safety = Safe | Unsafe

  /** The registered tools; registration happens before the Core starts and never changes. */
  type Catalog = map<string, Safety>

  datatype Preparation = NoPreparer | PreparerRaised(expected: bool) | NotAMapping | Prepared(arguments: Arguments)

  datatype HandlerOutcome = Returned(success: bool) | Raised(expected: bool)

  datatype Validation = Invalid(expected: bool) | Valid(value: Arguments)

  datatype Summarised = SummaryRaised(expected: bool) | Summary(text: string)

  /** `expected` tells KeyError, ValueError and ConfirmationError from every other exception. */
  datatype Callbacks = Callbacks(
    validated: Validation,
    summary: Summarised,
    prepared: Preparation,
    handler: HandlerOutcome)

  datatype Event =
    | Opened(session: string, device: string, initialized: bool, capabilities: seq<string>)
    | HelloAccepted(session: string, capabilities: seq<string>)
    | Minted(record: Pending)
    | Ran(owner: Option<string>, tool: string, arguments: Arguments, via: Option<Pending>)
    | Tapped(device: string, confirmation: string, summary: string, accepted: bool)

  datatype Invocation =
    | NeedsConfirmation(record: Pending)
    | Completed(success: bool)
    | InvocationFailed(expected: bool)

  datatype Resolution =
    | Rejected(record: Pending)
    | Resolved(record: Pending, success: bool)
    | ResolutionFailed(expected: bool)

  function Execute(owner: Option<string>, tool: string, arguments: Arguments, record: Option<Pending>): seq<Event> {
    [Ran(owner, tool, arguments, record)]
  }

  /** The arguments a confirmed record runs with: its snapshot, or its own arguments. */
  function Snapshot(record: Pending): Arguments {
    if record.execution.Some? then record.execution.value else record.arguments
  }

  function RequestFor(tool: string, arguments: Arguments, owner: Option<string>, callId: Option<string>,
                      digest: Option<string>, callbacks: Callbacks): Request
    requires callbacks.summary.Summary?
  {
    Request(tool, arguments, callbacks.summary.text, owner, callId, digest,
            if callbacks.prepared.Prepared? then Some(callbacks.prepared.arguments) else None)
  }

  /** `ToolRouter.invoke`. */
  function InvokeIn(table: Table, catalog: Catalog, ttl: int, tool: string, confirmation: Option<string>,
                    owner: Option<string>, callId: Option<string>, digest: Option<string>,
                    callbacks: Callbacks, freshId: string, now: int)
    : (Table, Invocation, seq<Event>)
  {
    if tool !in catalog then (table, InvocationFailed(true), [])
    else if callbacks.validated.Invalid? then (table, InvocationFailed(callbacks.validated.expected), [])
    else
      var values := callbacks.validated.value;
      var finished := if callbacks.handler.Returned? then Completed(callbacks.handler.success)
                      else InvocationFailed(callbacks.handler.expected);
      if catalog[tool] == Unsafe && confirmation.None? then
        match callbacks.prepared {
          case PreparerRaised(expected) => (table, InvocationFailed(expected), [])
          case NotAMapping => (table, InvocationFailed(true), [])
          case _ =>
            if callbacks.summary.SummaryRaised? then (table, InvocationFailed(callbacks.summary.expected), [])
            else
              var (after, created) :=
                CreateIn(table, ttl, RequestFor(tool, values, owner, callId, digest, callbacks), freshId, now);
              if created.Success? then (after, NeedsConfirmation(created.value), [Minted(created.value)])
              else (after, InvocationFailed(true), [])
        }
      else if catalog[tool] == Unsafe then
        var (after, consumed) := ConsumeFrom(table, confirmation.value, owner, now);
        if consumed.Failure? || consumed.value.tool != tool then (after, InvocationFailed(true), [])
        else (after, finished, Execute(owner, tool, Snapshot(consumed.value), Some(consumed.value)))
      else (table, finished, Execute(owner, tool, values, None))
  }

  /** `ToolRouter.resolve_confirmation`. */
  function ResolveIn(table: Table, catalog: Catalog, id: string, accepted: bool, owner: Option<string>,
                     callbacks: Callbacks, now: int)
    : (Table, Resolution, seq<Event>)
  {
    var (after, consumed) := ConsumeFrom(table, id, owner, now);
    if consumed.Failure? then (after, ResolutionFailed(true), [])
    else
      var record := consumed.value;
      if !accepted then (after, Rejected(record), [])
      else if record.tool !in catalog then (after, ResolutionFailed(true), [])
      else if record.execution.None? && callbacks.validated.Invalid? then
        (after, ResolutionFailed(callbacks.validated.expected), [])
      else
        var values := if record.execution.Some? then record.execution.value else callbacks.validated.value;
        (after,
         if callbacks.handler.Returned? then Resolved(record, callbacks.handler.success)
         else ResolutionFailed(callbacks.handler.expected),
         Execute(owner, record.tool, values, Some(record)))
  }

  /**
   * Invoking a tool with the confirmation that an earlier call asked for runs it exactly when it is the same tool, its
   * arguments still pass, the record has not expired and the owner, if there was one, is the same. It then runs with
   * what was frozen at the earlier call. Naming another tool uses the record up all the same.
   */
  lemma ConfirmedInvokeExactly(table: Table, catalog: Catalog, ttl: int, tool: string, owner: Option<string>, callId: Option<string>,
                               digest: Option<string>, callbacks: Callbacks, id: string, now: int,
                               tool': string, owner': Option<string>, callbacks': Callbacks, id': string, now': int)
    requires InvokeIn(table, catalog, ttl, tool, None, owner, callId, digest, callbacks, id, now).1.NeedsConfirmation?
    ensures var (asked, r, _) := InvokeIn(table, catalog, ttl, tool, None, owner, callId, digest, callbacks, id, now);
            var (after, _, events) := InvokeIn(asked, catalog, ttl, tool', Some(id), owner', callId, digest, callbacks', id', now');
            var frozen := if callbacks.prepared.Prepared? then callbacks.prepared.arguments else callbacks.validated.value;
            var usable := now' < now + ttl && (owner.None? || owner' == owner);
            var unsafe := tool' in catalog && callbacks'.validated.Valid? && catalog[tool'] == Unsafe;
            && (events == [Ran(owner', tool, frozen, Some(r.record))] <==> tool' == tool && unsafe && usable)
            && (unsafe && !(tool' == tool && usable) ==> events == [])
            && (unsafe && usable ==> after == asked - {id})
  {
    hide InvokeIn;
    AskedBy(table, catalog, ttl, tool, owner, callId, digest, callbacks, id, now);
    var (asked, r, _) := InvokeIn(table, catalog, ttl, tool, None, owner, callId, digest, callbacks, id, now);
    InvokedWith(asked, catalog, ttl, r.record, tool', owner', callId, digest, callbacks', id', now');
  }

  /** The record a call asks a confirmation for. */
  lemma AskedBy(table: Table, catalog: Catalog, ttl: int, tool: string, owner: Option<string>, callId: Option<string>,
                digest: Option<string>, callbacks: Callbacks, id: string, now: int)
    requires InvokeIn(table, catalog, ttl, tool, None, owner, callId, digest, callbacks, id, now).1.NeedsConfirmation?
    ensures callbacks.validated.Valid?
    ensures var (asked, r, _) := InvokeIn(table, catalog, ttl, tool, None, owner, callId, digest, callbacks, id, now);
            && id in asked && asked[id] == r.record
            && r.record.tool == tool && r.record.id == id && r.record.owner == owner && r.record.expiresAt == now + ttl
            && Snapshot(r.record) == if callbacks.prepared.Prepared? then callbacks.prepared.arguments else callbacks.validated.value
  {
    hide Acceptable, Unexpired, OwnedBy;
  }

  /** A call with the confirmation of a record that is there. */
  lemma InvokedWith(table: Table, catalog: Catalog, ttl: int, record: Pending, tool: string, owner: Option<string>,
                    callId: Option<string>, digest: Option<string>, callbacks: Callbacks, id: string, now: int)
    requires record.id in table && table[record.id] == record
    ensures var (after, _, events) :=
              InvokeIn(table, catalog, ttl, tool, Some(record.id), owner, callId, digest, callbacks, id, now);
            var usable := now < record.expiresAt && (record.owner.None? || owner == record.owner);
            var unsafe := tool in catalog && callbacks.validated.Valid? && catalog[tool] == Unsafe;
            && (events == [Ran(owner, record.tool, Snapshot(record), Some(record))] <==> tool == record.tool && unsafe && usable)
            && (unsafe && !(tool == record.tool && usable) ==> events == [])
            && (unsafe && usable ==> after == table - {record.id})
  {
    hide CreateIn, RequestFor;
  }

  class ToolRouter {
    const catalog: Catalog
    const confirmations: ConfirmationManager

    constructor (catalog: Catalog, confirmations: ConfirmationManager)
      ensures this.catalog == catalog && this.confirmations == confirmations
    {
      this.catalog := catalog;
      this.confirmations := confirmations;
    }

    method Invoke(tool: string, confirmation: Option<string>, owner: Option<string>, callId: Option<string>,
                  digest: Option<string>, callbacks: Callbacks, freshId: string, now: int)
      returns (r: Invocation, ghost events: seq<Event>)
      modifies confirmations
      ensures (confirmations.pending, r, events) ==
              InvokeIn(old(confirmations.pending), catalog, confirmations.ttl, tool, confirmation, owner,
                       callId, digest, callbacks, freshId, now)
    {
      events := [];
      if tool !in catalog {
        return InvocationFailed(true), [];
      }
      if callbacks.validated.Invalid? {
        return InvocationFailed(callbacks.validated.expected), [];
      }
      var values := callbacks.validated.value;
      ghost var record: Option<Pending> := None;
      if catalog[tool] == Unsafe && confirmation.None? {
        if callbacks.prepared.PreparerRaised? {
          return InvocationFailed(callbacks.prepared.expected), [];
        }
        if callbacks.prepared.NotAMapping? {
          return InvocationFailed(true), [];
        }
        if callbacks.summary.SummaryRaised? {
          return InvocationFailed(callbacks.summary.expected), [];
        }
        var request := RequestFor(tool, values, owner, callId, digest, callbacks);
        var created := confirmations.Create(request, freshId, now);
        if created.Failure? {
          return InvocationFailed(true), [];
        }
        return NeedsConfirmation(created.value), [Minted(created.value)];
      }
      if catalog[tool] == Unsafe {
        var consumed := confirmations.Consume(confirmation.value, owner, now);
        if consumed.Failure? || consumed.value.tool != tool {
          return InvocationFailed(true), [];
        }
        values := Snapshot(consumed.value);
        record := Some(consumed.value);
      }
      events := Execute(owner, tool, values, record);
      r := if callbacks.handler.Returned? then Completed(callbacks.handler.success)
           else InvocationFailed(callbacks.handler.expected);
    }

    method ResolveConfirmation(id: string, accepted: bool, owner: Option<string>, callbacks: Callbacks, now: int)
      returns (r: Resolution, ghost events: seq<Event>)
      modifies confirmations
      ensures (confirmations.pending, r, events) ==
              ResolveIn(old(confirmations.pending), catalog, id, accepted, owner, callbacks, now)
    {
      events := [];
      var consumed := confirmations.Consume(id, owner, now);
      if consumed.Failure? {
        return ResolutionFailed(true), [];
      }
      var record := consumed.value;
      if !accepted {
        return Rejected(record), [];
      }
      if record.tool !in catalog {
        return ResolutionFailed(true), [];
      }
      if record.execution.None? && callbacks.validated.Invalid? {
        return ResolutionFailed(callbacks.validated.expected), [];
      }
      var values := if record.execution.Some? then record.execution.value else callbacks.validated.value;
      events := Execute(owner, record.tool, values, Some(record));
      r := if callbacks.handler.Returned? then Resolved(record, callbacks.handler.success)
           else ResolutionFailed(callbacks.handler.expected);
    }

    method CancelPending(owner: string) returns (count: nat)
      modifies confirmations
      ensures confirmations.pending == Cancelled(old(confirmations.pending), owner)
    {
      count := confirmations.CancelForOwner(owner);
    }
  }
}
