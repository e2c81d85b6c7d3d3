/**
 * The data logic of the AutoCAD/Civil 3D connector's send and receive commands
 * (ConnectorAutocadCivil/ConnectorAutocadCivil/UI/ConnectorBindingsAutocadCivil.cs).
 *
 * Receiving flattens the commit object into the objects the converter can bake,
 * each paired with an AutoCAD layer path, then bakes them one by one, recording an
 * error for every object that fails.  Sending looks up every selected handle,
 * converts it and groups the results by layer in the commit object's members
 * `"@<layer>"`, recording an error for every handle that is skipped.
 *
 * Converter, layer table, drawing database and cancellation token are host
 * functions handed in as parameters.
 */
module AutocadBindings {
  import opened Wrappers
  import opened SpeckleBase

  /** The exceptions the connector adds to `state.Errors`, one variant per message. */
  datatype StreamError =
    | CouldNotRemoveLayers(prefix: string)                  // old commit layers could not be deleted
    | ReceivingNotSupported(obj: Base)                      // an unconvertible object with no members
    | FailedToConvert(obj: Base)                            // conversion gave no entity, or threw
    | CouldNotCreateLayer(layer: string)                    // the bake layer could not be made
    | LayerNamesModified                                    // some layer name lost invalid characters
    | LocalObjectNotFound(handle: string)                   // a selected handle names no object
    | TypeNotSupported(typeName: string)                    // the converter cannot send this type
    | FailedToConvertHandle(handle: string, typeName: string) // conversion to Speckle gave null

  /** The part of a stream's state the two commands read and update. */
  class StreamState {
    var errors: seq<StreamError>
    var selectedObjectIds: seq<string>

    constructor (selectedObjectIds: seq<string>)
      ensures errors == [] && this.selectedObjectIds == selectedObjectIds
    {
      errors := [];
      this.selectedObjectIds := selectedObjectIds;
    }
  }

  // ---------------------------------------------------------------------------
  // Flattening the commit object
  // ---------------------------------------------------------------------------

  /** An object to bake and the layer path to bake it on. */
  datatype Leaf = Leaf(obj: Base, layer: string)

  /** The objects found and the errors recorded while flattening. */
  datatype Flat = Flat(objects: seq<Leaf>, errors: seq<StreamError>) {
    function Then(next: Flat): Flat
    {
      Flat(objects + next.objects, errors + next.errors)
    }
  }

  const Nothing: Flat := Flat([], [])

  /** A member name with one leading `@` (the detach marker) removed; the prefix test is ordinal. */
  function LayerName(prop: string): (r: string)
    ensures prop == r || prop == "@" + r
    ensures |prop| > 0 && prop[0] == '@' <==> prop == "@" + r
  {
    if |prop| > 0 && prop[0] == '@' then prop[1..] else prop
  }

  /** The layer path of a member's children: `$"{layer}${objLayerName}"`. */
  function ChildLayer(layer: string, prop: string): (r: string)
    ensures layer <= r
  {
    layer + "$" + LayerName(prop)
  }

  /** What every result of flattening under `layer` satisfies. */
  ghost predicate WellFormed(r: Flat, can: Base -> bool, layer: string)
  {
    && (forall l :: l in r.objects ==> can(l.obj) && layer <= l.layer)
    && (forall e :: e in r.errors ==> e.ReceivingNotSupported? && !can(e.obj) && |e.obj.members| == 0)
  }

  lemma WellFormedThen(a: Flat, b: Flat, can: Base -> bool, layer: string)
    requires WellFormed(a, can, layer) && WellFormed(b, can, layer)
    ensures WellFormed(a.Then(b), can, layer)
  {
  }

  lemma WellFormedChild(r: Flat, can: Base -> bool, layer: string, prop: string)
    requires WellFormed(r, can, ChildLayer(layer, prop))
    ensures WellFormed(r, can, layer)
  {
    forall l | l in r.objects ensures layer <= l.layer {
      assert ChildLayer(layer, prop) <= l.layer;
      assert l.layer[..|layer|] == ChildLayer(layer, prop)[..|layer|];
    }
  }

  /**
   * `FlattenCommitObject`: a convertible object is emitted with the current layer and
   * not looked into; any other object records an error when it has no members and is
   * looked into member by member, each on its child layer; list items and dictionary
   * values are looked into on the same layer; anything else gives nothing.
   */
  function FlattenCommitObject(v: Value, can: Base -> bool, layer: string): (r: Flat)
    ensures WellFormed(r, can, layer)
    decreases Size(v), 1
  {
    match v
    case Object(b) =>
      if can(b) then Flat([Leaf(b, layer)], [])
      else
        var unsupported := if |b.members| == 0 then [ReceivingNotSupported(b)] else [];
        var rest := FlattenMembers(b.members, can, layer);
        WellFormedThen(Flat([], unsupported), rest, can, layer);
        Flat([], unsupported).Then(rest)
    case List(items) => FlattenItems(items, can, layer)
    case Dict(entries) => FlattenEntries(entries, can, layer)
    case _ => Nothing
  }

  /** The members of an unconvertible object, in order, each on its own child layer. */
  function FlattenMembers(ms: seq<Member>, can: Base -> bool, layer: string): (r: Flat)
    ensures WellFormed(r, can, layer)
    decreases MembersSize(ms), 0
  {
    if ms == [] then Nothing
    else
      var n := |ms| - 1;
      var prefix := FlattenMembers(ms[..n], can, layer);
      var last := FlattenCommitObject(ms[n].value, can, ChildLayer(layer, ms[n].key));
      WellFormedChild(last, can, layer, ms[n].key);
      WellFormedThen(prefix, last, can, layer);
      prefix.Then(last)
  }

  /** The items of a list, in order, on the same layer. */
  function FlattenItems(vs: seq<Value>, can: Base -> bool, layer: string): (r: Flat)
    ensures WellFormed(r, can, layer)
    decreases ItemsSize(vs), 0
  {
    if vs == [] then Nothing
    else
      var n := |vs| - 1;
      var prefix := FlattenItems(vs[..n], can, layer);
      var last := FlattenCommitObject(vs[n], can, layer);
      WellFormedThen(prefix, last, can, layer);
      prefix.Then(last)
  }

  /** The values of a dictionary, in order, on the same layer. */
  function FlattenEntries(es: seq<Member>, can: Base -> bool, layer: string): (r: Flat)
    ensures WellFormed(r, can, layer)
    decreases MembersSize(es), 0
  {
    if es == [] then Nothing
    else
      var n := |es| - 1;
      var prefix := FlattenEntries(es[..n], can, layer);
      var last := FlattenCommitObject(es[n].value, can, layer);
      WellFormedThen(prefix, last, can, layer);
      prefix.Then(last)
  }

  /** Every object emitted is one the converter accepts, on a layer below the starting one. */
  lemma FlattenEmitsConvertible(v: Value, can: Base -> bool, layer: string)
    ensures forall l :: l in FlattenCommitObject(v, can, layer).objects ==> can(l.obj) && layer <= l.layer
  {
  }

  /** Every error is about an unconvertible object with no members. */
  lemma FlattenErrorsAreUnsupported(v: Value, can: Base -> bool, layer: string)
    ensures forall e :: e in FlattenCommitObject(v, can, layer).errors ==>
      e.ReceivingNotSupported? && !can(e.obj) && |e.obj.members| == 0
  {
  }

  /** A convertible object is emitted once, on the current layer, and its members are not visited. */
  lemma FlattenConvertible(b: Base, can: Base -> bool, layer: string)
    requires can(b)
    ensures FlattenCommitObject(Object(b), can, layer) == Flat([Leaf(b, layer)], [])
  {
  }

  /** An unconvertible object with no members gives exactly one error and nothing to bake. */
  lemma FlattenEmptyUnsupported(b: Base, can: Base -> bool, layer: string)
    requires !can(b) && |b.members| == 0
    ensures FlattenCommitObject(Object(b), can, layer) == Flat([], [ReceivingNotSupported(b)])
  {
  }

  /** Strings, scalars and null give nothing. */
  lemma FlattenOther(v: Value, can: Base -> bool, layer: string)
    requires v.Null? || v.Text? || v.Scalar?
    ensures FlattenCommitObject(v, can, layer) == Nothing
  {
  }

  lemma ThenAssociative(a: Flat, b: Flat, c: Flat)
    ensures a.Then(b).Then(c) == a.Then(b.Then(c))
  {
  }

  /** Splitting a list splits its flattening: items are flattened in order and the results concatenated. */
  lemma {:induction false} FlattenItemsAppend(xs: seq<Value>, ys: seq<Value>, can: Base -> bool, layer: string)
    ensures FlattenItems(xs + ys, can, layer) == FlattenItems(xs, can, layer).Then(FlattenItems(ys, can, layer))
    decreases |ys|
  {
    if ys == [] {
      assert xs + ys == xs;
    } else {
      var n := |ys| - 1;
      assert (xs + ys)[..|xs + ys| - 1] == xs + ys[..n];
      assert (xs + ys)[|xs + ys| - 1] == ys[n];
      FlattenItemsAppend(xs, ys[..n], can, layer);
      ThenAssociative(FlattenItems(xs, can, layer), FlattenItems(ys[..n], can, layer), FlattenCommitObject(ys[n], can, layer));
    }
  }

  /** A one-item list flattens as its item does. */
  lemma FlattenItemsSingle(x: Value, can: Base -> bool, layer: string)
    ensures FlattenItems([x], can, layer) == FlattenCommitObject(x, can, layer)
  {
    assert [x][..0] == [];
  }

  /** Splitting a dictionary splits its flattening the same way. */
  lemma {:induction false} FlattenEntriesAppend(xs: seq<Member>, ys: seq<Member>, can: Base -> bool, layer: string)
    ensures FlattenEntries(xs + ys, can, layer) == FlattenEntries(xs, can, layer).Then(FlattenEntries(ys, can, layer))
    decreases |ys|
  {
    if ys == [] {
      assert xs + ys == xs;
    } else {
      var n := |ys| - 1;
      assert (xs + ys)[..|xs + ys| - 1] == xs + ys[..n];
      assert (xs + ys)[|xs + ys| - 1] == ys[n];
      FlattenEntriesAppend(xs, ys[..n], can, layer);
      ThenAssociative(FlattenEntries(xs, can, layer), FlattenEntries(ys[..n], can, layer), FlattenCommitObject(ys[n].value, can, layer));
    }
  }

  /** A one-entry dictionary flattens as its value does, on the same layer, whatever its key. */
  lemma FlattenEntriesSingle(e: Member, can: Base -> bool, layer: string)
    ensures FlattenEntries([e], can, layer) == FlattenCommitObject(e.value, can, layer)
  {
    assert [e][..0] == [];
  }

  /** A one-member unconvertible object flattens its member's value on the child layer. */
  lemma FlattenMembersSingle(m: Member, can: Base -> bool, layer: string)
    ensures FlattenMembers([m], can, layer) == FlattenCommitObject(m.value, can, ChildLayer(layer, m.key))
  {
    assert [m][..0] == [];
  }

  // ---------------------------------------------------------------------------
  // Receiving: the bake loop
  // ---------------------------------------------------------------------------

  /** An AutoCAD entity made by the converter. */
  type Entity

  /** `converter.ConvertToNative(obj) as Entity` followed by `Append`. */
  datatype Conversion =
    | ConvertedEntity(entity: Entity)   // an entity, appended to the layer
    | NotAnEntity                       // null, or something that is not an entity
    | ConversionThrew                   // the conversion or the append threw

  /**
   * The host side of receiving: the converter's `CanConvertToNative`, its conversion,
   * and `GetOrMakeLayer`, which gives the cleaned layer name when the layer exists or
   * could be made.
   */
  datatype ReceiveHost = ReceiveHost(
    canConvert: Base -> bool,
    convert: Base -> Conversion,
    makeLayer: string -> Option<string>)

  /** An entity baked onto a layer. */
  datatype Baked = Baked(entity: Entity, layer: string)

  /** The state of the bake loop: the entities baked, the errors recorded and `changedLayerNames`. */
  datatype BakeResult = BakeResult(baked: seq<Baked>, errors: seq<StreamError>, renamed: bool)

  /** One pass of the bake loop: make the layer, then convert and append the object. */
  function BakeStep(prev: BakeResult, leaf: Leaf, host: ReceiveHost): BakeResult
  {
    match host.makeLayer(leaf.layer)
    case None => prev.(errors := prev.errors + [CouldNotCreateLayer(leaf.layer)])
    case Some(cleanName) =>
      var renamed := prev.renamed || cleanName != leaf.layer;
      match host.convert(leaf.obj)
      case ConvertedEntity(e) => BakeResult(prev.baked + [Baked(e, cleanName)], prev.errors, renamed)
      case _ => BakeResult(prev.baked, prev.errors + [FailedToConvert(leaf.obj)], renamed)
  }

  /** The bake loop over the flattened objects, first to last. */
  function Bake(leaves: seq<Leaf>, host: ReceiveHost): BakeResult
  {
    if leaves == [] then BakeResult([], [], false)
    else BakeStep(Bake(leaves[..|leaves| - 1], host), leaves[|leaves| - 1], host)
  }

  /** Whether a leaf's entity lands in the drawing. */
  predicate Bakes(leaf: Leaf, host: ReceiveHost)
  {
    host.makeLayer(leaf.layer).Some? && host.convert(leaf.obj).ConvertedEntity?
  }

  /** The reference: the flattened objects whose layer can be made and whose conversion gives an entity, in order. */
  function BakingLeaves(leaves: seq<Leaf>, host: ReceiveHost): (r: seq<Leaf>)
    ensures forall l :: l in r ==> Bakes(l, host)
  {
    if leaves == [] then []
    else
      var prev := BakingLeaves(leaves[..|leaves| - 1], host);
      var leaf := leaves[|leaves| - 1];
      if Bakes(leaf, host) then prev + [leaf] else prev
  }

  /** What a baking object puts in the drawing: its entity, on its cleaned layer. */
  function BakedFrom(leaf: Leaf, host: ReceiveHost): Baked
    requires Bakes(leaf, host)
  {
    Baked(host.convert(leaf.obj).entity, host.makeLayer(leaf.layer).value)
  }

  /**
   * Every object is either baked or recorded as an error, never both and never
   * neither; the entities baked are those of the baking objects, in order.
   */
  lemma {:induction false} BakeAccountsForEveryObject(leaves: seq<Leaf>, host: ReceiveHost)
    ensures |Bake(leaves, host).baked| + |Bake(leaves, host).errors| == |leaves|
    ensures var bl := BakingLeaves(leaves, host);
      |Bake(leaves, host).baked| == |bl| &&
      forall i :: 0 <= i < |bl| ==> Bake(leaves, host).baked[i] == BakedFrom(bl[i], host)
  {
    if leaves != [] {
      BakeAccountsForEveryObject(leaves[..|leaves| - 1], host);
    }
  }

  /**
   * The reference for the errors: one per object that does not bake, in order, saying
   * that its layer could not be made or, when the layer was made, that it did not convert.
   */
  function FailureErrors(leaves: seq<Leaf>, host: ReceiveHost): seq<StreamError>
  {
    if leaves == [] then []
    else
      var prev := FailureErrors(leaves[..|leaves| - 1], host);
      var leaf := leaves[|leaves| - 1];
      if Bakes(leaf, host) then prev
      else if host.makeLayer(leaf.layer).None? then prev + [CouldNotCreateLayer(leaf.layer)]
      else prev + [FailedToConvert(leaf.obj)]
  }

  /** Baking stops for nothing: the errors recorded are exactly the failed objects' errors, in order. */
  lemma {:induction false} BakeErrorsAreFailures(leaves: seq<Leaf>, host: ReceiveHost)
    ensures Bake(leaves, host).errors == FailureErrors(leaves, host)
  {
    if leaves != [] {
      BakeErrorsAreFailures(leaves[..|leaves| - 1], host);
    }
  }

  /** Each error recorded names an object that did not bake, with one of the two causes. */
  lemma {:induction false} BakeErrorCauses(leaves: seq<Leaf>, host: ReceiveHost)
    ensures forall e :: e in Bake(leaves, host).errors ==>
      exists i :: 0 <= i < |leaves| && !Bakes(leaves[i], host) &&
        (e == CouldNotCreateLayer(leaves[i].layer) || e == FailedToConvert(leaves[i].obj))
  {
    if leaves != [] {
      var n := |leaves| - 1;
      BakeErrorCauses(leaves[..n], host);
      forall e | e in Bake(leaves, host).errors
        ensures exists i :: (0 <= i < |leaves| && !Bakes(leaves[i], host) &&
          (e == CouldNotCreateLayer(leaves[i].layer) || e == FailedToConvert(leaves[i].obj)))
      {
        if e in Bake(leaves[..n], host).errors {
          var i :| 0 <= i < n && !Bakes(leaves[..n][i], host) &&
            (e == CouldNotCreateLayer(leaves[..n][i].layer) || e == FailedToConvert(leaves[..n][i].obj));
          assert leaves[..n][i] == leaves[i];
        } else {
          assert !Bakes(leaves[n], host);
        }
      }
    }
  }

  /** `changedLayerNames` is set exactly when some layer that could be made came back with another name. */
  lemma {:induction false} BakeRenamed(leaves: seq<Leaf>, host: ReceiveHost)
    ensures Bake(leaves, host).renamed <==>
      exists i :: 0 <= i < |leaves| && host.makeLayer(leaves[i].layer).Some? && host.makeLayer(leaves[i].layer).value != leaves[i].layer
  {
    if leaves != [] {
      var n := |leaves| - 1;
      BakeRenamed(leaves[..n], host);
      assert forall i :: 0 <= i < n ==> leaves[..n][i] == leaves[i];
    }
  }

  /** The errors the bake loop records never include the aggregate one. */
  lemma {:induction false} BakeNeverAggregates(leaves: seq<Leaf>, host: ReceiveHost)
    ensures LayerNamesModified !in Bake(leaves, host).errors
  {
    if leaves != [] {
      BakeNeverAggregates(leaves[..|leaves| - 1], host);
    }
  }

  /** The stream state's errors after one receive that started with `prior`, in the order they are added. */
  function ReceiveErrors(prior: seq<StreamError>, flat: Flat, layerPrefix: string, removedOldLayers: bool,
                         host: ReceiveHost): seq<StreamError>
  {
    var afterRemoval := if removedOldLayers then prior else prior + [CouldNotRemoveLayers(layerPrefix)];
    var bake := Bake(flat.objects, host);
    var afterBake := afterRemoval + flat.errors + bake.errors;
    if bake.renamed then afterBake + [LayerNamesModified] else afterBake
  }

  /** A receive adds the "layer names were modified" error at most once. */
  lemma AggregateErrorAtMostOnce(prior: seq<StreamError>, commitObject: Value, layerPrefix: string,
                                 removedOldLayers: bool, host: ReceiveHost)
    ensures var flat := FlattenCommitObject(commitObject, host.canConvert, layerPrefix);
      multiset(ReceiveErrors(prior, flat, layerPrefix, removedOldLayers, host))[LayerNamesModified]
        <= multiset(prior)[LayerNamesModified] + 1
  {
    var flat := FlattenCommitObject(commitObject, host.canConvert, layerPrefix);
    var bake := Bake(flat.objects, host);
    BakeNeverAggregates(flat.objects, host);
    assert LayerNamesModified !in flat.errors;
    assert multiset(flat.errors)[LayerNamesModified] == 0;
    assert multiset(bake.errors)[LayerNamesModified] == 0;
  }

  datatype ReceiveOutcome = ReceiveCancelled | Received(baked: seq<Baked>)

  /**
   * The data path of `ReceiveStream` once the commit object has arrived: a cancelled
   * receive returns null and changes nothing; otherwise the old commit layers are
   * removed (`removedOldLayers` says whether that worked), the commit object is
   * flattened under `layerPrefix` and every object is baked, errors going to the state.
   */
  method ReceiveStream(state: StreamState, commitObject: Value, layerPrefix: string, cancelled: bool,
                       removedOldLayers: bool, host: ReceiveHost) returns (r: ReceiveOutcome)
    modifies state
    ensures state.selectedObjectIds == old(state.selectedObjectIds)
    ensures cancelled ==> r == ReceiveCancelled && state.errors == old(state.errors)
    ensures !cancelled ==>
      var flat := FlattenCommitObject(commitObject, host.canConvert, layerPrefix);
      && r == Received(Bake(flat.objects, host).baked)
      && state.errors == ReceiveErrors(old(state.errors), flat, layerPrefix, removedOldLayers, host)
  {
    if cancelled {
      return ReceiveCancelled;
    }
    if !removedOldLayers {
      state.errors := state.errors + [CouldNotRemoveLayers(layerPrefix)];
    }
    var commitObjs := FlattenCommitObject(commitObject, host.canConvert, layerPrefix);
    state.errors := state.errors + commitObjs.errors;
    var baked, changedLayerNames := BakeObjects(state, commitObjs.objects, host);
    if changedLayerNames {
      state.errors := state.errors + [LayerNamesModified];
    }
    r := Received(baked);
  }

  /** The `foreach (var commitObj in commitObjs)` loop of `ReceiveStream`. */
  method BakeObjects(state: StreamState, commitObjs: seq<Leaf>, host: ReceiveHost)
    returns (baked: seq<Baked>, changedLayerNames: bool)
    modifies state
    ensures state.selectedObjectIds == old(state.selectedObjectIds)
    ensures state.errors == old(state.errors) + Bake(commitObjs, host).errors
    ensures baked == Bake(commitObjs, host).baked && changedLayerNames == Bake(commitObjs, host).renamed
  {
    baked := [];
    changedLayerNames := false;
    for i := 0 to |commitObjs|
      invariant state.selectedObjectIds == old(state.selectedObjectIds)
      invariant state.errors == old(state.errors) + Bake(commitObjs[..i], host).errors
      invariant baked == Bake(commitObjs[..i], host).baked
      invariant changedLayerNames == Bake(commitObjs[..i], host).renamed
    {
      var leaf := commitObjs[i];
      assert commitObjs[..i + 1][..i] == commitObjs[..i];
      ghost var next := BakeStep(Bake(commitObjs[..i], host), leaf, host);
      assert Bake(commitObjs[..i + 1], host) == next;
      match host.makeLayer(leaf.layer) {
        case Some(cleanName) =>
          if cleanName != leaf.layer {
            changedLayerNames := true;
          }
          match host.convert(leaf.obj) {
            case ConvertedEntity(e) =>
              baked := baked + [Baked(e, cleanName)];
            case NotAnEntity =>
              state.errors := state.errors + [FailedToConvert(leaf.obj)];
            case ConversionThrew =>
              state.errors := state.errors + [FailedToConvert(leaf.obj)];
          }
        case None =>
          state.errors := state.errors + [CouldNotCreateLayer(leaf.layer)];
      }
    }
    assert commitObjs[..|commitObjs|] == commitObjs;
  }

  // ---------------------------------------------------------------------------
  // Sending: grouping the converted objects by layer
  // ---------------------------------------------------------------------------

  /** An object of the drawing's database. */
  type DbObject

  /** What `hn.GetObject(out type, out layer)` gives for a handle. */
  datatype Lookup = Lookup(obj: Option<DbObject>, typeName: string, layer: string)

  /**
   * The host side of sending: the database lookup of a handle, the dynamic-member
   * name cleaner `RemoveInvalidDynamicPropChars`, and the converter.
   */
  datatype SendHost = SendHost(
    lookup: string -> Lookup,
    cleanLayer: string -> string,
    canConvert: DbObject -> bool,
    convert: DbObject -> Option<Base>)

  /** What happens to one selected handle. */
  datatype Outcome = Rejected(error: StreamError) | Accepted(layer: string, obj: Base)

  /** One handle's fate: skipped with one error, or converted, tagged with its handle and placed on its clean layer. */
  function HandleOutcome(handle: string, host: SendHost): (r: Outcome)
    ensures r.Accepted? <==>
      && host.lookup(handle).obj.Some?
      && host.canConvert(host.lookup(handle).obj.value)
      && host.convert(host.lookup(handle).obj.value).Some?
    ensures r.Accepted? ==>
      && r.layer == host.cleanLayer(host.lookup(handle).layer)
      && r.obj == host.convert(host.lookup(handle).obj.value).value.(applicationId := Some(handle))
    ensures host.lookup(handle).obj.None? ==> r == Rejected(LocalObjectNotFound(handle))
    ensures host.lookup(handle).obj.Some? && !host.canConvert(host.lookup(handle).obj.value) ==>
      r == Rejected(TypeNotSupported(host.lookup(handle).typeName))
    ensures (host.lookup(handle).obj.Some? && host.canConvert(host.lookup(handle).obj.value)
             && host.convert(host.lookup(handle).obj.value).None?) ==>
      r == Rejected(FailedToConvertHandle(handle, host.lookup(handle).typeName))
  {
    var found := host.lookup(handle);
    match found.obj
    case None => Rejected(LocalObjectNotFound(handle))
    case Some(obj) =>
      if !host.canConvert(obj) then Rejected(TypeNotSupported(found.typeName))
      else match host.convert(obj)
        case None => Rejected(FailedToConvertHandle(handle, found.typeName))
        case Some(converted) =>
          Accepted(host.cleanLayer(found.layer), converted.(applicationId := Some(handle)))
  }

  /** The state of the send loop: the commit object's members, the errors, `convertedCount` and `renamedlayers`. */
  datatype Grouping = Grouping(members: seq<Member>, errors: seq<StreamError>, count: nat, renamed: bool)

  /** The commit object before the loop: `new Base()` with its `units`. */
  function InitialMembers(units: string): seq<Member>
  {
    Set(NewBase.members, "units", Text(units))
  }

  /** One pass of the send loop over `handle`. */
  function GroupStep(prev: Grouping, handle: string, host: SendHost): Grouping
  {
    var found := host.lookup(handle);
    var renamed := prev.renamed || host.cleanLayer(found.layer) != found.layer;
    match HandleOutcome(handle, host)
    case Rejected(e) => Grouping(prev.members, prev.errors + [e], prev.count, renamed)
    case Accepted(layer, obj) =>
      var key := "@" + layer;
      var current := Get(prev.members, key);
      var items := if current.List? then current.items else [];
      Grouping(Set(prev.members, key, List(items + [Object(obj)])), prev.errors, prev.count + 1, renamed)
  }

  /** The send loop over the handles, first to last. */
  function Group(handles: seq<string>, units: string, host: SendHost): Grouping
  {
    if handles == [] then Grouping(InitialMembers(units), [], 0, false)
    else GroupStep(Group(handles[..|handles| - 1], units, host), handles[|handles| - 1], host)
  }

  /** The reference: the objects accepted for a layer, in selection order. */
  function AcceptedOn(handles: seq<string>, layer: string, host: SendHost): seq<Value>
  {
    if handles == [] then []
    else
      var prev := AcceptedOn(handles[..|handles| - 1], layer, host);
      match HandleOutcome(handles[|handles| - 1], host)
      case Accepted(l, obj) => if l == layer then prev + [Object(obj)] else prev
      case Rejected(_) => prev
  }

  /** The handles accepted on any layer, in selection order. */
  function AcceptedHandles(handles: seq<string>, host: SendHost): seq<string>
  {
    if handles == [] then []
    else
      var prev := AcceptedHandles(handles[..|handles| - 1], host);
      if HandleOutcome(handles[|handles| - 1], host).Accepted? then prev + [handles[|handles| - 1]] else prev
  }

  /**
   * The commit object's member `"@<layer>"` holds exactly the objects accepted on that
   * layer, in selection order, and is absent while there are none.
   */
  lemma {:induction false} GroupByLayer(handles: seq<string>, units: string, layer: string, host: SendHost)
    ensures Get(Group(handles, units, host).members, "@" + layer)
         == if AcceptedOn(handles, layer, host) == [] then Null else List(AcceptedOn(handles, layer, host))
  {
    if handles == [] {
      assert ("@" + layer)[0] != "units"[0];
      assert Keys(InitialMembers(units)) == {"units"};
    } else {
      GroupByLayer(handles[..|handles| - 1], units, layer, host);
      match HandleOutcome(handles[|handles| - 1], host)
      case Rejected(_) =>
      case Accepted(l, obj) =>
        if l != layer {
          assert "@" + l != "@" + layer by {
            assert ("@" + l)[1..] == l && ("@" + layer)[1..] == layer;
          }
        }
    }
  }

  /**
   * Creating the list when the member is null and then adding to it is one write of
   * the extended list.
   */
  lemma AddToLayerList(ms: seq<Member>, key: string, obj: Value)
    requires Get(ms, key).Null? || Get(ms, key).List?
    ensures var ms1 := if Get(ms, key) == Null then Set(ms, key, List([])) else ms;
      Set(ms1, key, List(Get(ms1, key).items + [obj]))
        == Set(ms, key, List((if Get(ms, key).List? then Get(ms, key).items else []) + [obj]))
  {
    if Get(ms, key) == Null {
      var ms1 := Set(ms, key, List([]));
      assert Get(ms1, key).items + [obj] == [obj];
      SetTwice(ms, key, List([]), List([obj]));
      assert [] + [obj] == [obj];
    }
  }

  /** The `units` member stays what it was set to. */
  lemma {:induction false} GroupKeepsUnits(handles: seq<string>, units: string, host: SendHost)
    ensures Get(Group(handles, units, host).members, "units") == Text(units)
  {
    if handles != [] {
      GroupKeepsUnits(handles[..|handles| - 1], units, host);
      match HandleOutcome(handles[|handles| - 1], host)
      case Rejected(_) =>
      case Accepted(l, obj) =>
        assert ("@" + l)[0] == '@';
    }
  }

  /** The commit object holds `units` and the layer lists `@<layer>`, and nothing else. */
  lemma {:induction false} GroupMemberKeys(handles: seq<string>, units: string, host: SendHost)
    ensures forall k :: k in Keys(Group(handles, units, host).members) ==> k == "units" || (|k| > 0 && k[0] == '@')
  {
    if handles != [] {
      GroupMemberKeys(handles[..|handles| - 1], units, host);
      match HandleOutcome(handles[|handles| - 1], host)
      case Rejected(_) =>
      case Accepted(l, obj) =>
        assert ("@" + l)[0] == '@';
    }
  }

  /** Every handle gives either one error or one converted object, and `convertedCount` counts the latter. */
  lemma {:induction false} GroupCounts(handles: seq<string>, units: string, host: SendHost)
    ensures Group(handles, units, host).count == |AcceptedHandles(handles, host)|
    ensures |Group(handles, units, host).errors| + Group(handles, units, host).count == |handles|
  {
    if handles != [] {
      GroupCounts(handles[..|handles| - 1], units, host);
    }
  }

  /** The first loop-head check, among checks `0..n`, at which cancellation was requested; `n + 1` if none. */
  function FirstCancel(cancel: nat -> bool, n: nat): (k: nat)
    ensures k <= n + 1
    ensures k <= n ==> cancel(k)
    ensures forall j :: 0 <= j < k && j <= n ==> !cancel(j)
  {
    FirstCancelFrom(cancel, 0, n)
  }

  function FirstCancelFrom(cancel: nat -> bool, i: nat, n: nat): (k: nat)
    requires i <= n + 1
    ensures i <= k <= n + 1
    ensures k <= n ==> cancel(k)
    ensures forall j :: i <= j < k && j <= n ==> !cancel(j)
    decreases n + 1 - i
  {
    if i > n then n + 1 else if cancel(i) then i else FirstCancelFrom(cancel, i + 1, n)
  }

  datatype SendOutcome =
    | NothingSelected                                             // returns the state, sends nothing
    | SendCancelled                                               // returns null
    | ReadyToSend(commit: Base, convertedCount: nat, renamedLayers: bool)

  /**
   * The data path of `SendStream` up to `Operations.Send`: the selection is replaced
   * by the filter's when there is a filter; an empty selection stops the send; then
   * every handle is converted into the commit object, checking the cancellation token
   * (`cancel(i)` at the `i`-th check) before each handle and once after the last.
   */
  method SendStream(state: StreamState, filterSelection: Option<seq<string>>, units: string,
                    cancel: nat -> bool, host: SendHost) returns (r: SendOutcome)
    modifies state
    ensures state.selectedObjectIds == if filterSelection.Some? then filterSelection.value else old(state.selectedObjectIds)
    ensures
      var ids := state.selectedObjectIds;
      var k := FirstCancel(cancel, |ids|);
      if |ids| == 0 then
        r == NothingSelected && state.errors == old(state.errors)
      else if k <= |ids| then
        r == SendCancelled && state.errors == old(state.errors) + Group(ids[..k], units, host).errors
      else
        var g := Group(ids, units, host);
        r == ReadyToSend(NewBase.(members := g.members), g.count, g.renamed)
        && state.errors == old(state.errors) + g.errors
  {
    if filterSelection.Some? {
      state.selectedObjectIds := filterSelection.value;
    }
    var ids := state.selectedObjectIds;
    if |ids| == 0 {
      return NothingSelected;
    }
    var cancelled, members, convertedCount, renamedLayers := ConvertHandles(state, ids, units, cancel, host);
    if cancelled {
      return SendCancelled;
    }
    assert ids[..|ids|] == ids;
    if cancel(|ids|) {
      return SendCancelled;
    }
    r := ReadyToSend(NewBase.(members := members), convertedCount, renamedLayers);
  }

  /**
   * The `foreach (var autocadObjectHandle in state.SelectedObjectIds)` loop of
   * `SendStream`; `cancelled` is its `return null` from inside the loop.
   */
  method ConvertHandles(state: StreamState, ids: seq<string>, units: string, cancel: nat -> bool, host: SendHost)
    returns (cancelled: bool, members: seq<Member>, convertedCount: nat, renamedLayers: bool)
    modifies state
    ensures state.selectedObjectIds == old(state.selectedObjectIds)
    ensures var k := FirstCancel(cancel, |ids|);
      && cancelled == (k < |ids|)
      && state.errors == old(state.errors) + Group(ids[..if cancelled then k else |ids|], units, host).errors
    ensures !cancelled ==>
      var g := Group(ids, units, host);
      members == g.members && convertedCount == g.count && renamedLayers == g.renamed
  {
    members := Set(NewBase.members, "units", Text(units));
    convertedCount := 0;
    renamedLayers := false;
    for i := 0 to |ids|
      invariant state.selectedObjectIds == old(state.selectedObjectIds)
      invariant FirstCancelFrom(cancel, i, |ids|) == FirstCancel(cancel, |ids|)
      invariant state.errors == old(state.errors) + Group(ids[..i], units, host).errors
      invariant members == Group(ids[..i], units, host).members
      invariant convertedCount == Group(ids[..i], units, host).count
      invariant renamedLayers == Group(ids[..i], units, host).renamed
    {
      if cancel(i) {
        return true, members, convertedCount, renamedLayers;
      }
      var handle := ids[i];
      assert ids[..i + 1][..i] == ids[..i];
      ghost var prev := Group(ids[..i], units, host);
      assert Group(ids[..i + 1], units, host) == GroupStep(prev, handle, host);
      GroupByLayer(ids[..i], units, host.cleanLayer(host.lookup(handle).layer), host);
      members, convertedCount, renamedLayers := ConvertHandle(state, handle, members, convertedCount, renamedLayers, host);
    }
    assert ids[..|ids|] == ids;
    assert FirstCancel(cancel, |ids|) >= |ids|;
    cancelled := false;
  }

  /** The body of the send loop for one handle, after the cancellation check; `return` is its `continue`. */
  method ConvertHandle(state: StreamState, handle: string, members: seq<Member>, convertedCount: nat, renamedLayers: bool,
                       host: SendHost)
    returns (members': seq<Member>, convertedCount': nat, renamedLayers': bool)
    requires var key := "@" + host.cleanLayer(host.lookup(handle).layer); Get(members, key).Null? || Get(members, key).List?
    modifies state
    ensures state.selectedObjectIds == old(state.selectedObjectIds)
    ensures var next := GroupStep(Grouping(members, old(state.errors), convertedCount, renamedLayers), handle, host);
      state.errors == next.errors && members' == next.members && convertedCount' == next.count && renamedLayers' == next.renamed
  {
    members', convertedCount', renamedLayers' := members, convertedCount, renamedLayers;
    var found := host.lookup(handle);
    var cleanLayerName := host.cleanLayer(found.layer);
    if cleanLayerName != found.layer {
      renamedLayers' := true;
    }
    if found.obj.None? {
      state.errors := state.errors + [LocalObjectNotFound(handle)];
      return;
    }
    var obj := found.obj.value;
    if !host.canConvert(obj) {
      state.errors := state.errors + [TypeNotSupported(found.typeName)];
      return;
    }
    var converted := host.convert(obj);
    if converted.None? {
      state.errors := state.errors + [FailedToConvertHandle(handle, found.typeName)];
      return;
    }
    var tagged := converted.value.(applicationId := Some(handle));
    var key := "@" + cleanLayerName;
    AddToLayerList(members', key, Object(tagged));
    if Get(members', key) == Null {
      members' := Set(members', key, List([]));
    }
    members' := Set(members', key, List(Get(members', key).items + [Object(tagged)]));
    convertedCount' := convertedCount' + 1;
  }
}
