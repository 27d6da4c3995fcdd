/** The shared query hooks: the list query's default, and what each
    mutation hook does once its request is answered. react-query's cache is
    abstracted to the log of effects the hooks cause: the HTTP request, the
    cache keys they invalidate, and the success callback they run. */
module JobsQueries {
  import opened Wrappers
  import opened JobTypes
  import opened JobsQueryKeys

  /** `useJobApplications`' list: the fetched array, or `[]` while there
      is none. */
  function JobsOrEmpty(data: Option<seq<JobApplication>>): (jobs: seq<JobApplication>)
    ensures data.None? ==> jobs == []
    ensures data.Some? ==> jobs == data.value
  {
    data.GetOr([])
  }

  /** How the server answered a request. */
  datatype Reply<T> = Success(value: T) | Failure(message: string)

  /** One effect of a mutation hook. There is no effect that writes
      entity data into the cache: the hooks only ever invalidate. */
  datatype Effect =
    | PostRequest(request: CreateRequest)
    | PutRequest(id: string, request: CreateRequest)
    | DeleteRequest(id: string)
    | Invalidate(key: QueryKey)
    | CreatedCallback(created: JobApplication)
    | UpdatedCallback(updated: JobApplication)
    | DeletedCallback

  predicate IsRequest(e: Effect) {
    e.PostRequest? || e.PutRequest? || e.DeleteRequest?
  }

  predicate IsCallback(e: Effect) {
    e.CreatedCallback? || e.UpdatedCallback? || e.DeletedCallback?
  }

  /** The keys a log invalidates, in order. */
  function Invalidations(effects: seq<Effect>): seq<QueryKey> {
    if effects == [] then []
    else (if effects[0].Invalidate? then [effects[0].key] else []) + Invalidations(effects[1..])
  }

  lemma InvalidationsOfOne(e: Effect)
    ensures Invalidations([e]) == if e.Invalidate? then [e.key] else []
  {
    assert [e][1..] == [];
  }

  /** The invalidations of two logs one after the other are those of the
      first followed by those of the second. */
  lemma {:induction false} InvalidationsAppend(a: seq<Effect>, b: seq<Effect>)
    ensures Invalidations(a + b) == Invalidations(a) + Invalidations(b)
    decreases |a|
  {
    if a == [] {
      assert a + b == b;
    } else {
      assert (a + b)[0] == a[0] && (a + b)[1..] == a[1..] + b;
      InvalidationsAppend(a[1..], b);
    }
  }

  /** The shape every hook's effects have: exactly one request, first;
      then only invalidations, awaited one after the other; a callback, if
      any, comes last, after every invalidation. */
  predicate Sequenced(effects: seq<Effect>) {
    && |effects| >= 1 && IsRequest(effects[0])
    && (forall i :: 1 <= i < |effects| ==> !IsRequest(effects[i]))
    && (forall i :: 0 <= i < |effects| - 1 ==> !IsCallback(effects[i]))
  }

  /** One invalidation per key, in order. */
  function InvalidateEach(keys: seq<QueryKey>): (r: seq<Effect>)
    ensures |r| == |keys|
    ensures forall i :: 0 <= i < |r| ==> r[i] == Invalidate(keys[i])
    ensures Invalidations(r) == keys
    decreases |keys|
  {
    if keys == [] then []
    else
      var rest := InvalidateEach(keys[1..]);
      InvalidationsOfOne(Invalidate(keys[0]));
      InvalidationsAppend([Invalidate(keys[0])], rest);
      assert keys == [keys[0]] + keys[1..];
      [Invalidate(keys[0])] + rest
  }

  /** A request, then invalidations, then at most one callback, is
      sequenced. */
  lemma SequencedShape(request: Effect, invalidations: seq<Effect>, tail: seq<Effect>)
    requires IsRequest(request)
    requires forall i :: 0 <= i < |invalidations| ==> invalidations[i].Invalidate?
    requires |tail| <= 1 && (tail != [] ==> IsCallback(tail[0]))
    ensures Sequenced([request] + invalidations + tail)
  {
    var r := [request] + invalidations + tail;
    assert forall i :: 1 <= i <= |invalidations| ==> r[i] == invalidations[i - 1];
    assert tail != [] ==> r[|r| - 1] == tail[0];
  }

  /** The effects of a hook whose request succeeded: the request, the
      invalidations in order, then at most one callback. */
  lemma SuccessEffects(request: Effect, keys: seq<QueryKey>, tail: seq<Effect>)
    requires IsRequest(request)
    requires |tail| <= 1 && (tail != [] ==> IsCallback(tail[0]))
    ensures var r := [request] + InvalidateEach(keys) + tail;
      && Sequenced(r) && r[0] == request && Invalidations(r) == keys
      && (IsCallback(r[|r| - 1]) <==> tail != [])
      && (tail != [] ==> r[|r| - 1] == tail[0])
  {
    SequencedShape(request, InvalidateEach(keys), tail);
    ShapeInvalidations(request, keys, tail);
    ShapeLast(request, keys, tail);
  }

  lemma ShapeInvalidations(request: Effect, keys: seq<QueryKey>, tail: seq<Effect>)
    requires IsRequest(request)
    requires |tail| <= 1 && (tail != [] ==> IsCallback(tail[0]))
    ensures Invalidations([request] + InvalidateEach(keys) + tail) == keys
  {
    var invalidations := InvalidateEach(keys);
    InvalidationsOfOne(request);
    InvalidationsAppend([request], invalidations);
    InvalidationsAppend([request] + invalidations, tail);
    if tail != [] {
      InvalidationsOfOne(tail[0]);
      assert tail == [tail[0]];
    }
  }

  lemma ShapeLast(request: Effect, keys: seq<QueryKey>, tail: seq<Effect>)
    requires |tail| <= 1
    ensures var r := [request] + InvalidateEach(keys) + tail;
      r[|r| - 1] == if tail != [] then tail[0] else if keys != [] then Invalidate(keys[|keys| - 1]) else request
  {
  }

  /** `successCallback?.(...)`: the call when a callback was given. */
  function OptionalCallback(hasCallback: bool, call: Effect): seq<Effect> {
    if hasCallback then [call] else []
  }

  /** `useCreateJobApplication`: POST the request; on success invalidate
      the list, then pass the created application to the callback. */
  function CreateEffects(request: CreateRequest, reply: Reply<JobApplication>, hasCallback: bool): seq<Effect> {
    match reply
    case Failure(_) => [PostRequest(request)]
    case Success(created) =>
      [PostRequest(request), Invalidate(All)] + OptionalCallback(hasCallback, CreatedCallback(created))
  }

  /** `useUpdateJobApplication(id)`: PUT the request to `id`; on success
      invalidate the list, then that application's own key, then pass the
      updated application to the callback. */
  function UpdateEffects(id: string, request: CreateRequest, reply: Reply<JobApplication>, hasCallback: bool): seq<Effect> {
    match reply
    case Failure(_) => [PutRequest(id, request)]
    case Success(updated) =>
      [PutRequest(id, request), Invalidate(All), Invalidate(ById(id))]
        + OptionalCallback(hasCallback, UpdatedCallback(updated))
  }

  /** `useDeleteJobApplication`: DELETE `id`; on success invalidate the
      list, then call the callback with no argument. */
  function DeleteEffects(id: string, reply: Reply<bool>, hasCallback: bool): seq<Effect> {
    match reply
    case Failure(_) => [DeleteRequest(id)]
    case Success(_) => [DeleteRequest(id), Invalidate(All)] + OptionalCallback(hasCallback, DeletedCallback)
  }

  /** Create: the POST first; on success the list key is invalidated once,
      and only then the callback gets the created application; a failed
      request has no further effect. */
  lemma CreateSequencing(request: CreateRequest, reply: Reply<JobApplication>, hasCallback: bool)
    ensures var r := CreateEffects(request, reply, hasCallback);
      && Sequenced(r) && r[0] == PostRequest(request)
      && Invalidations(r) == (if reply.Success? then [All] else [])
      && (IsCallback(r[|r| - 1]) <==> reply.Success? && hasCallback)
      && (IsCallback(r[|r| - 1]) ==> r[|r| - 1] == CreatedCallback(reply.value))
  {
    match reply
    case Failure(_) =>
      InvalidationsOfOne(PostRequest(request));
    case Success(created) =>
      var tail := OptionalCallback(hasCallback, CreatedCallback(created));
      assert InvalidateEach([All]) == [Invalidate(All)];
      assert CreateEffects(request, reply, hasCallback) == [PostRequest(request)] + InvalidateEach([All]) + tail;
      SuccessEffects(PostRequest(request), [All], tail);
  }

  /** Update: the PUT to `id` first; on success the list key, then the key
      of `id`, are invalidated, and only then the callback gets the
      updated application. */
  lemma UpdateSequencing(id: string, request: CreateRequest, reply: Reply<JobApplication>, hasCallback: bool)
    ensures var r := UpdateEffects(id, request, reply, hasCallback);
      && Sequenced(r) && r[0] == PutRequest(id, request)
      && Invalidations(r) == (if reply.Success? then [All, ById(id)] else [])
      && (IsCallback(r[|r| - 1]) <==> reply.Success? && hasCallback)
      && (IsCallback(r[|r| - 1]) ==> r[|r| - 1] == UpdatedCallback(reply.value))
  {
    match reply
    case Failure(_) =>
      InvalidationsOfOne(PutRequest(id, request));
    case Success(updated) =>
      var tail := OptionalCallback(hasCallback, UpdatedCallback(updated));
      assert InvalidateEach([All, ById(id)]) == [Invalidate(All), Invalidate(ById(id))];
      assert UpdateEffects(id, request, reply, hasCallback)
        == [PutRequest(id, request)] + InvalidateEach([All, ById(id)]) + tail;
      SuccessEffects(PutRequest(id, request), [All, ById(id)], tail);
  }

  /** Delete: the DELETE of `id` first; on success only the list key is
      invalidated, and only then the callback is called. */
  lemma DeleteSequencing(id: string, reply: Reply<bool>, hasCallback: bool)
    ensures var r := DeleteEffects(id, reply, hasCallback);
      && Sequenced(r) && r[0] == DeleteRequest(id)
      && Invalidations(r) == (if reply.Success? then [All] else [])
      && (IsCallback(r[|r| - 1]) <==> reply.Success? && hasCallback)
      && (IsCallback(r[|r| - 1]) ==> r[|r| - 1] == DeletedCallback)
  {
    match reply
    case Failure(_) =>
      InvalidationsOfOne(DeleteRequest(id));
    case Success(_) =>
      var tail := OptionalCallback(hasCallback, DeletedCallback);
      assert InvalidateEach([All]) == [Invalidate(All)];
      assert DeleteEffects(id, reply, hasCallback) == [DeleteRequest(id)] + InvalidateEach([All]) + tail;
      SuccessEffects(DeleteRequest(id), [All], tail);
  }

  /** Every key a hook invalidates has the list key as prefix, so every
      successful mutation refreshes the list. */
  lemma InvalidationsRefreshList(id: string, request: CreateRequest, reply: Reply<JobApplication>, deleted: Reply<bool>, hasCallback: bool)
    ensures forall k :: k in Invalidations(CreateEffects(request, reply, hasCallback)) ==> IsPrefix(All, k)
    ensures forall k :: k in Invalidations(UpdateEffects(id, request, reply, hasCallback)) ==> IsPrefix(All, k)
    ensures forall k :: k in Invalidations(DeleteEffects(id, deleted, hasCallback)) ==> IsPrefix(All, k)
  {
    AllIsProperPrefixOfById(id);
    assert IsPrefix(All, All);
    assert forall k :: k in [All, ById(id)] ==> IsPrefix(All, k);
    CreateSequencing(request, reply, hasCallback);
    UpdateSequencing(id, request, reply, hasCallback);
    DeleteSequencing(id, deleted, hasCallback);
  }

  /** The id the update request goes to is the id whose key is
      invalidated. */
  lemma UpdateInvalidatesItsOwnKey(id: string, request: CreateRequest, updated: JobApplication, hasCallback: bool)
    ensures var r := UpdateEffects(id, request, Success(updated), hasCallback);
      r[0].id == id && ById(r[0].id) in Invalidations(r)
  {
    UpdateSequencing(id, request, Success(updated), hasCallback);
  }

  /** The mutation hooks, with the log of the effects they have caused. */
  class JobMutations {
    var log: seq<Effect>

    constructor ()
      ensures log == []
    {
      log := [];
    }

    /** One `mutate` of the create hook, answered with `reply`. */
    method MutateCreate(request: CreateRequest, reply: Reply<JobApplication>, hasCallback: bool)
      modifies this
      ensures log == old(log) + CreateEffects(request, reply, hasCallback)
    {
      log := log + [PostRequest(request)];
      if reply.Failure? {
        return;
      }
      log := log + [Invalidate(All)];
      if hasCallback {
        log := log + [CreatedCallback(reply.value)];
      }
    }

    /** One `mutate` of the update hook for `id`, answered with `reply`. */
    method MutateUpdate(id: string, request: CreateRequest, reply: Reply<JobApplication>, hasCallback: bool)
      modifies this
      ensures log == old(log) + UpdateEffects(id, request, reply, hasCallback)
    {
      log := log + [PutRequest(id, request)];
      if reply.Failure? {
        return;
      }
      log := log + [Invalidate(All)];
      log := log + [Invalidate(ById(id))];
      if hasCallback {
        log := log + [UpdatedCallback(reply.value)];
      }
    }

    /** One `mutate` of the delete hook, answered with `reply`. */
    method MutateDelete(id: string, reply: Reply<bool>, hasCallback: bool)
      modifies this
      ensures log == old(log) + DeleteEffects(id, reply, hasCallback)
    {
      log := log + [DeleteRequest(id)];
      if reply.Failure? {
        return;
      }
      log := log + [Invalidate(All)];
      if hasCallback {
        log := log + [DeletedCallback];
      }
    }
  }
}
