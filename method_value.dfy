/** The value semantics of a bound method object (Ruby's `Method`): the
    record of fields `newMethod` fills in, and the decisions `==`, `eql?`,
    `hash`, `clone`, `unbind`, `super_method`, `original_name`,
    `source_location` and the argument forwarding of `call` make over it. */
module MethodValues {
  import opened Runtime

  /** The fields of a RubyMethod.  `receiver` is `None` for the unbound
      form (Java `null`); `metaClass` is the class of the method object
      itself (`Method`, or a singleton class of it). */
  datatype MethodValue = MethodValue(
    receiver: Option<ObjId>,
    implementationModule: ModuleId,
    methodName: string,
    originModule: ModuleId,
    originName: string,
    entry: CacheEntry,
    descriptor: Method,
    sourceModule: ModuleId,
    metaClass: ModuleId)

  /** Any Java object `equals` may be handed: a method object or not. */
  datatype Obj = MethodObject(value: MethodValue) | OtherObject(id: ObjId)

  /** What `newMethod` establishes: the descriptor and the source module are
      the ones of the cache entry. */
  predicate WellFormed(v: MethodValue) {
    v.descriptor == v.entry.descriptor && v.sourceModule == v.entry.sourceModule
  }

  /** `newMethod`: the eight field assignments on a fresh object of class
      `Method`. */
  function NewMethod(implementationModule: ModuleId, methodName: string, originModule: ModuleId,
                     originName: string, entry: CacheEntry, receiver: Option<ObjId>,
                     w: World): (v: MethodValue)
    ensures WellFormed(v)
    ensures v.entry == entry && v.receiver == receiver && v.metaClass == w.methodClass
    ensures v.implementationModule == implementationModule && v.originModule == originModule
    ensures v.methodName == methodName && v.originName == originName
  {
    MethodValue(receiver, implementationModule, methodName, originModule, originName,
                entry, entry.descriptor, entry.sourceModule, w.methodClass)
  }

  /** `clone`: a `newMethod` from the same fields, then given the
      original's metaclass.  It rebuilds descriptor and source module from
      the entry, so on a well-formed value every field comes out identical. */
  function Clone(v: MethodValue, w: World): (c: MethodValue)
    ensures WellFormed(c)
    ensures WellFormed(v) ==> c == v
  {
    NewMethod(v.implementationModule, v.methodName, v.originModule, v.originName, v.entry,
              v.receiver, w).(metaClass := v.metaClass)
  }

  /** `unbind`: the same fields without a receiver, as an UnboundMethod
      (whose factory is taken to assign the fields as `newMethod` does). */
  function Unbind(v: MethodValue, w: World): (u: MethodValue)
    ensures WellFormed(u) && u.receiver == None && u.metaClass == w.unboundMethodClass
    ensures u.implementationModule == v.implementationModule && u.originModule == v.originModule
    ensures u.methodName == v.methodName && u.originName == v.originName && u.entry == v.entry
    ensures WellFormed(v) ==> u.descriptor == v.descriptor && u.sourceModule == v.sourceModule
  {
    NewMethod(v.implementationModule, v.methodName, v.originModule, v.originName, v.entry,
              None, w).(metaClass := w.unboundMethodClass)
  }

  // ---------------------------------------------------------------------
  // Equality

  /** `isSerialMatch`: both sides unwrap to descriptors with one serial;
      handing it an already unwrapped descriptor changes nothing. */
  predicate IsSerialMatch(v: MethodValue, other: Method)
    ensures IsSerialMatch(v, other) <==> Real(v.descriptor).attrs.serial == Real(Real(other)).attrs.serial
  {
    Real(v.descriptor).attrs.serial == Real(other).attrs.serial
  }

  /** `isMethodMissingMatch`: this side unwraps to a respond-to-missing
      descriptor that `equals` the other's real descriptor. */
  predicate IsMethodMissingMatch(v: MethodValue, otherReal: Method, w: World)
    ensures !Real(v.descriptor).RespondToMissing? ==> !IsMethodMissingMatch(v, otherReal, w)
  {
    Real(v.descriptor).RespondToMissing? && w.missingEquals(Real(v.descriptor), otherReal)
  }

  /** Java `equals`. */
  predicate Equals(v: MethodValue, other: Obj, w: World)
    ensures Equals(v, other, w) ==> other.MethodObject?
    ensures Equals(v, other, w) && !v.descriptor.ProcBacked? ==>
              v.metaClass == other.value.metaClass && v.receiver == other.value.receiver &&
              v.originModule == other.value.originModule
  {
    match other
    case OtherObject(_) => false
    case MethodObject(o) =>
      if v.descriptor.ProcBacked? then
        w.procIsSame(v.descriptor, o.descriptor)
      else if v.metaClass != o.metaClass then
        false
      else
        v.receiver == o.receiver && v.originModule == o.originModule &&
        (IsSerialMatch(v, o.descriptor) || IsMethodMissingMatch(v, Real(o.descriptor), w))
  }

  /** Ruby `==`. */
  function OpEqual(v: MethodValue, other: Obj, w: World): (r: bool)
    ensures r <==> Equals(v, other, w)
  {
    Equals(v, other, w)
  }

  /** Ruby `eql?`, which answers through `==`. */
  function OpEql(v: MethodValue, other: Obj, w: World): (r: bool)
    ensures r <==> Equals(v, other, w)
  {
    OpEqual(v, other, w)
  }

  lemma EqlAgreesWithEqual(v: MethodValue, other: Obj, w: World)
    ensures OpEql(v, other, w) == OpEqual(v, other, w) == Equals(v, other, w)
  {
  }

  /** A Proc-backed method answers with `isSame` on the other descriptor
      alone: neither receivers, origins nor metaclasses are consulted. */
  lemma ProcEqualityIsSameOnly(v: MethodValue, o: MethodValue, w: World)
    requires v.descriptor.ProcBacked?
    ensures Equals(v, MethodObject(o), w) == w.procIsSame(v.descriptor, o.descriptor)
  {
  }

  /** The rule for all other descriptors, both directions. */
  lemma NonProcEqualityRule(v: MethodValue, o: MethodValue, w: World)
    requires !v.descriptor.ProcBacked?
    ensures Equals(v, MethodObject(o), w) <==>
              v.metaClass == o.metaClass && v.receiver == o.receiver &&
              v.originModule == o.originModule &&
              (Real(v.descriptor).attrs.serial == Real(o.descriptor).attrs.serial ||
               (Real(v.descriptor).RespondToMissing? &&
                w.missingEquals(Real(v.descriptor), Real(o.descriptor))))
  {
  }

  /** Differing metaclasses force inequality outside the Proc case. */
  lemma MetaClassMismatchIsUnequal(v: MethodValue, o: MethodValue, w: World)
    requires !v.descriptor.ProcBacked? && v.metaClass != o.metaClass
    ensures !Equals(v, MethodObject(o), w)
  {
  }

  /** Outside the Proc case a method object equals itself. */
  lemma EqualsReflexive(v: MethodValue, w: World)
    requires !v.descriptor.ProcBacked?
    ensures Equals(v, MethodObject(v), w)
  {
  }

  /** Values that agree on receiver, origin and metaclass and whose
      descriptors unwrap to the same real descriptor are equal both ways,
      e.g. a method reached through an alias and through its target. */
  lemma SameRealMethodIsEqual(v: MethodValue, o: MethodValue, w: World)
    requires !v.descriptor.ProcBacked? && !o.descriptor.ProcBacked?
    requires v.receiver == o.receiver && v.originModule == o.originModule
    requires v.metaClass == o.metaClass
    requires Real(v.descriptor) == Real(o.descriptor)
    ensures Equals(v, MethodObject(o), w) && Equals(o, MethodObject(v), w)
  {
  }

  /** An alias and the descriptor it renames give equal method objects. */
  lemma {:induction false} AliasEqualsTarget(v: MethodValue, attrs: Attrs, oldName: string, w: World)
    requires !v.descriptor.ProcBacked?
    ensures var a := v.(descriptor := Alias(attrs, oldName, v.descriptor));
            Equals(a, MethodObject(v), w) && Equals(v, MethodObject(a), w)
  {
    var a := v.(descriptor := Alias(attrs, oldName, v.descriptor));
    assert Real(a.descriptor) == Real(v.descriptor);
    SameRealMethodIsEqual(a, v, w);
  }

  /** A redefinition gets a new serial, so the old and the new method
      object are unequal unless the respond-to-missing rule applies. */
  lemma RedefinitionIsUnequal(v: MethodValue, o: MethodValue, w: World)
    requires !v.descriptor.ProcBacked? && !Real(v.descriptor).RespondToMissing?
    requires Real(v.descriptor).attrs.serial != Real(o.descriptor).attrs.serial
    ensures !Equals(v, MethodObject(o), w)
  {
  }

  /** Equality restricted to descriptors that are neither Proc-backed nor
      respond-to-missing. */
  predicate Ordinary(v: MethodValue) {
    !v.descriptor.ProcBacked? && !Real(v.descriptor).RespondToMissing?
  }

  lemma EqualsSymmetric(a: MethodValue, b: MethodValue, w: World)
    requires Ordinary(a) && Ordinary(b)
    ensures Equals(a, MethodObject(b), w) == Equals(b, MethodObject(a), w)
  {
  }

  lemma EqualsTransitive(a: MethodValue, b: MethodValue, c: MethodValue, w: World)
    requires Ordinary(a) && Ordinary(b) && Ordinary(c)
    requires Equals(a, MethodObject(b), w) && Equals(b, MethodObject(c), w)
    ensures Equals(a, MethodObject(c), w)
  {
  }

  /** A clone of a well-formed method object is equal to it, both ways. */
  lemma CloneIsEqual(v: MethodValue, w: World)
    requires WellFormed(v) && !v.descriptor.ProcBacked?
    ensures Equals(Clone(v, w), MethodObject(v), w) && Equals(v, MethodObject(Clone(v, w)), w)
  {
  }

  // ---------------------------------------------------------------------
  // Hashing

  /** Reducing into a `long` first does not change the low 32 bits. */
  lemma IntOfLong(x: int)
    ensures ToInt(ToLong(x)) == ToInt(x)
  {
    var l := ToLong(x);
    var k := (x - l) / TWO64;
    assert x - l == k * TWO64;
    assert x - l == (k * TWO32) * TWO32;
    SameLowBits(x, l, k * TWO32);
  }

  lemma SameLowBits(a: int, b: int, k: int)
    requires a - b == k * TWO32
    ensures ToInt(a) == ToInt(b)
  {
    assert a % TWO32 == b % TWO32;
  }

  /** `hashCodeImpl`: the receiver's Java hash times the real descriptor's
      serial, as a `long` product.  A null receiver makes Java throw,
      modelled as `None`. */
  function HashCodeImpl(v: MethodValue, w: World): (r: Option<Int64>)
    ensures r.Some? <==> v.receiver.Some?
    ensures r.Some? ==> r.value == ToLong(w.objectHash(v.receiver.value) * Real(v.descriptor).attrs.serial)
  {
    match v.receiver
    case None => None
    case Some(o) => Some(ToLong(w.objectHash(o) * Real(v.descriptor).attrs.serial))
  }

  /** `hashCode`: `hashCodeImpl` cast to `int`, which is the low 32 bits of
      the exact product, whatever the `long` wrap-around did. */
  function HashCode(v: MethodValue, w: World): (r: Option<Int32>)
    ensures r.Some? <==> v.receiver.Some?
    ensures r.Some? ==>
              r.value == ToInt(w.objectHash(v.receiver.value) * Real(v.descriptor).attrs.serial)
  {
    match HashCodeImpl(v, w)
    case None => None
    case Some(h) =>
      IntOfLong(w.objectHash(v.receiver.value) * Real(v.descriptor).attrs.serial);
      Some(ToInt(h))
  }

  /** Outside the Proc and respond-to-missing cases, equal method objects
      have equal hashes. */
  lemma EqualValuesHashEqually(v: MethodValue, o: MethodValue, w: World)
    requires Ordinary(v) && Equals(v, MethodObject(o), w)
    ensures HashCodeImpl(v, w) == HashCodeImpl(o, w)
    ensures HashCode(v, w) == HashCode(o, w)
  {
  }

  /** In the Proc case equality does not look at the receiver while the
      hash does: two method objects over the same Proc-backed descriptor
      and different receivers can be equal yet hash differently. */
  lemma ProcEqualityIgnoresHash(v: MethodValue, r2: ObjId, w: World)
    requires v.descriptor.ProcBacked? && v.descriptor.attrs.serial == 1 && v.receiver.Some?
    requires w.procIsSame(v.descriptor, v.descriptor)
    requires w.objectHash(v.receiver.value) != w.objectHash(r2)
    ensures Equals(v, MethodObject(v.(receiver := Some(r2))), w)
    ensures HashCode(v, w) != HashCode(v.(receiver := Some(r2)), w)
  {
  }

  // ---------------------------------------------------------------------
  // Arity, names, location, super

  /** `arity`: the arity of the descriptor's own signature. */
  function Arity(v: MethodValue): (r: int)
    ensures WellFormed(v) ==> r == v.entry.descriptor.attrs.arity
  {
    v.descriptor.attrs.arity
  }

  /** `original_name`: an alias answers with the name it was made from,
      every other method with its exposed name. */
  function OriginalName(v: MethodValue): (r: string)
    ensures v.descriptor.Alias? ==> r == v.descriptor.oldName
    ensures !v.descriptor.Alias? ==> r == v.methodName
  {
    if v.descriptor.Alias? then v.descriptor.oldName else v.methodName
  }

  lemma OriginalNameOfAlias(v: MethodValue, exposed: string)
    requires v.descriptor.Alias?
    ensures OriginalName(v.(methodName := exposed)) == OriginalName(v) == v.descriptor.oldName
  {
  }

  datatype Location = Location(file: string, line: int)

  /** `source_location`: `[file, line]` when the descriptor has a file,
      `nil` otherwise. */
  function SourceLocation(v: MethodValue, w: World): (r: Option<Location>)
    ensures r.Some? <==> w.filename(v.descriptor).Some?
    ensures r.Some? ==> r.value.file == w.filename(v.descriptor).value
    ensures r.Some? ==> r.value.line == w.line(v.descriptor)
  {
    match w.filename(v.descriptor)
    case None => None
    case Some(f) => Some(Location(f, w.line(v.descriptor)))
  }

  /** Alias and partially delegating descriptors, whose search for `super`
      starts above the module implementing the real descriptor. */
  predicate StartsAboveImplementer(m: Method) {
    m.Alias? || m.PartialDelegating?
  }

  /** The superclass `super_method` passes on, `None` standing for null. */
  function SuperMethodStart(v: MethodValue, w: World): (r: Option<ModuleId>)
    ensures !StartsAboveImplementer(v.descriptor) ==> r == w.superClass(v.sourceModule)
    ensures StartsAboveImplementer(v.descriptor) ==>
              var impl := w.findImplementer(v.sourceModule, Real(v.descriptor).attrs.definedClass);
              (impl.None? ==> r.None?) && (impl.Some? ==> r == w.superClass(impl.value))
  {
    if StartsAboveImplementer(v.descriptor) then
      match w.findImplementer(v.sourceModule, Real(v.descriptor).attrs.definedClass)
      case None => None
      case Some(m) => w.superClass(m)
    else
      w.superClass(v.sourceModule)
  }

  /** What `super_method` hands to the lookup that is not part of this
      model: the receiver and the module to start from. */
  datatype SuperRequest = SuperRequest(receiver: Option<ObjId>, start: Option<ModuleId>)

  function SuperMethod(v: MethodValue, w: World): (r: SuperRequest)
    ensures r.receiver == v.receiver
    ensures !StartsAboveImplementer(v.descriptor) ==> r.start == w.superClass(v.sourceModule)
    ensures StartsAboveImplementer(v.descriptor) &&
            w.findImplementer(v.sourceModule, Real(v.descriptor).attrs.definedClass).None? ==>
              r.start.None?
    ensures StartsAboveImplementer(v.descriptor) &&
            w.findImplementer(v.sourceModule, Real(v.descriptor).attrs.definedClass).Some? ==>
              r.start == w.superClass(w.findImplementer(v.sourceModule, Real(v.descriptor).attrs.definedClass).value)
  {
    SuperRequest(v.receiver, SuperMethodStart(v, w))
  }

  /** When the implementer of the real descriptor is the source module
      itself, the alias path and the plain path of the unwrapped method
      agree. */
  lemma AliasPathAgreesWithPlainPath(v: MethodValue, w: World)
    requires StartsAboveImplementer(v.descriptor)
    requires w.findImplementer(v.sourceModule, Real(v.descriptor).attrs.definedClass) == Some(v.sourceModule)
    ensures SuperMethodStart(v, w) == SuperMethodStart(v.(descriptor := Real(v.descriptor)), w)
  {
  }

  /** On the alias path only the real descriptor matters, not the chain of
      wrappers that leads to it. */
  lemma AliasPathDependsOnlyOnReal(v: MethodValue, m: Method, w: World)
    requires StartsAboveImplementer(v.descriptor) && StartsAboveImplementer(m)
    requires Real(m) == Real(v.descriptor)
    ensures SuperMethodStart(v.(descriptor := m), w) == SuperMethodStart(v, w)
  {
  }

  /** A fully delegating descriptor takes the plain path: its start is the
      source module's superclass even though it is a wrapper. */
  lemma FullDelegatingTakesPlainPath(v: MethodValue, w: World)
    requires v.descriptor.Delegating?
    ensures SuperMethodStart(v, w) == w.superClass(v.sourceModule)
  {
  }

  /** Unbinding keeps everything these queries read except the receiver. */
  lemma UnbindKeepsDescriptorQueries(v: MethodValue, w: World)
    requires WellFormed(v)
    ensures Arity(Unbind(v, w)) == Arity(v)
    ensures OriginalName(Unbind(v, w)) == OriginalName(v)
    ensures SourceLocation(Unbind(v, w), w) == SourceLocation(v, w)
    ensures SuperMethodStart(Unbind(v, w), w) == SuperMethodStart(v, w)
  {
  }

  /** Two method objects that differ only in receiver and metaclass unbind
      to the same value. */
  lemma UnbindForgetsReceiver(v: MethodValue, r: Option<ObjId>, meta: ModuleId, w: World)
    ensures Unbind(v.(receiver := r, metaClass := meta), w) == Unbind(v, w)
  {
  }

  // ---------------------------------------------------------------------
  // call

  /** The call `method.call(context, receiver, sourceModule, methodName,
      args, block)` that every `call` overload ends in. */
  datatype Invocation = Invocation(
    descriptor: Method, receiver: Option<ObjId>, sourceModule: ModuleId,
    name: string, args: seq<ObjId>)

  function Dispatch(v: MethodValue, args: seq<ObjId>): (r: Invocation)
    ensures r.descriptor == v.descriptor && r.receiver == v.receiver
    ensures r.sourceModule == v.sourceModule && r.name == v.methodName && r.args == args
  {
    Invocation(v.descriptor, v.receiver, v.sourceModule, v.methodName, args)
  }

  /** The argument list after the keyword-rest duplication: only the last
      argument goes through it; an empty list is passed unchanged. */
  function ForwardedArgs(args: seq<ObjId>, w: World): (r: seq<ObjId>)
    ensures |r| == |args|
    ensures forall i :: 0 <= i < |args| - 1 ==> r[i] == args[i]
    ensures |args| > 0 ==> r[|args| - 1] == w.dupKeywordRest(args[|args| - 1])
  {
    if |args| == 0 then args else args[..|args| - 1] + [w.dupKeywordRest(args[|args| - 1])]
  }

  /** The fixed-arity overloads of `call` forward what the array overload
      forwards for the same arguments. */
  function Call0(v: MethodValue, w: World): (r: Invocation)
    ensures r == Dispatch(v, ForwardedArgs([], w))
  {
    Dispatch(v, [])
  }

  function Call1(v: MethodValue, arg: ObjId, w: World): (r: Invocation)
    ensures r == Dispatch(v, ForwardedArgs([arg], w))
  {
    Dispatch(v, [w.dupKeywordRest(arg)])
  }

  function Call2(v: MethodValue, arg0: ObjId, arg1: ObjId, w: World): (r: Invocation)
    ensures r == Dispatch(v, ForwardedArgs([arg0, arg1], w))
  {
    Dispatch(v, [arg0, w.dupKeywordRest(arg1)])
  }

  function Call3(v: MethodValue, arg0: ObjId, arg1: ObjId, arg2: ObjId, w: World): (r: Invocation)
    ensures r == Dispatch(v, ForwardedArgs([arg0, arg1, arg2], w))
  {
    Dispatch(v, [arg0, arg1, w.dupKeywordRest(arg2)])
  }
}
