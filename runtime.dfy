/** The runtime collaborators of a bound method value: object and module
    identities, method descriptors, cache entries, and the hierarchy and
    object queries that the method value only calls and never defines.
    Those queries are gathered in `World` as function-valued fields, so every
    fact proved below holds for every possible answer they give. */
module Runtime {

  datatype Option<+T> = None | Some(value: T)

  /** Identity of a Ruby object (Java reference identity). */
  type ObjId = nat
  /** Identity of a Ruby module or class. */
  type ModuleId = nat

  const TWO31: int := 0x8000_0000
  const TWO32: int := 0x1_0000_0000
  const TWO63: int := 0x8000_0000_0000_0000
  const TWO64: int := 0x1_0000_0000_0000_0000

  /** Java `int` and `long` values. */
  type Int32 = x: int | -TWO31 <= x < TWO31
  type Int64 = x: int | -TWO63 <= x < TWO63
  /** A descriptor serial number: a non-negative Java `long`. */
  type Serial = x: int | 0 <= x < TWO63

  /** Java's two's-complement wrap-around of an exact integer into a `long`. */
  function ToLong(x: int): (r: Int64)
    ensures (x - r) % TWO64 == 0
    ensures -TWO63 <= x < TWO63 ==> r == x
  {
    var m := x % TWO64;
    if m >= TWO63 then m - TWO64 else m
  }

  /** Java's `(int)` cast: keeps the low 32 bits, read as two's complement. */
  function ToInt(x: int): (r: Int32)
    ensures (x - r) % TWO32 == 0
    ensures -TWO31 <= x < TWO31 ==> r == x
  {
    var m := x % TWO32;
    if m >= TWO31 then m - TWO32 else m
  }

  /** The attributes every descriptor exposes: serial number, defining
      module, own name, the not-implemented flag and its signature's arity. */
  datatype Attrs = Attrs(
    serial: Serial,
    definedClass: ModuleId,
    name: string,
    notImplemented: bool,
    arity: int)

  /** A method descriptor (DynamicMethod).  The wrappers point at the
      descriptor they stand for; `ProcBacked` is a method defined from a
      block, `RespondToMissing` one answered through `respond_to_missing?`. */
  datatype Method =
    | Plain(attrs: Attrs)
    | Alias(attrs: Attrs, oldName: string, target: Method)
    | PartialDelegating(attrs: Attrs, delegate: Method)
    | Delegating(attrs: Attrs, delegate: Method)
    | ProcBacked(attrs: Attrs, procKey: nat)
    | RespondToMissing(attrs: Attrs, missingKey: nat)

  /** AliasMethod or DelegatingDynamicMethod (PartialDelegatingMethod is a
      DelegatingDynamicMethod). */
  predicate IsWrapper(m: Method) {
    m.Alias? || m.PartialDelegating? || m.Delegating?
  }

  /** A descriptor that `getRealMethod` returns unchanged. */
  predicate IsReal(m: Method) {
    !IsWrapper(m)
  }

  /** `getRealMethod`: unwraps aliases and delegating wrappers down to the
      descriptor that carries the code. */
  function Real(m: Method): (r: Method)
    ensures IsReal(r)
    ensures IsReal(m) ==> r == m
  {
    match m
    case Alias(_, _, t) => Real(t)
    case PartialDelegating(_, d) => Real(d)
    case Delegating(_, d) => Real(d)
    case _ => m
  }

  /** An inline cache entry: the descriptor found and the module it was
      found in, plus the cache token. */
  datatype CacheEntry = CacheEntry(descriptor: Method, sourceModule: ModuleId, token: nat)

  /** The opaque queries the method value uses.  `classOf(o)` is `Some(c)`
      when the object `o` is itself a class `c` (`instanceof RubyClass`). */
  datatype World = World(
    superClass: ModuleId -> Option<ModuleId>,
    findImplementer: (ModuleId, ModuleId) -> Option<ModuleId>,
    isSingleton: ModuleId -> bool,
    isIncluded: ModuleId -> bool,
    attached: ModuleId -> ObjId,
    metaClassOf: ModuleId -> ModuleId,
    rubyName: ModuleId -> string,
    typeName: ModuleId -> string,
    inspectObject: ObjId -> string,
    inspectModule: ModuleId -> string,
    classOf: ObjId -> Option<ModuleId>,
    objectHash: ObjId -> Int32,
    procIsSame: (Method, Method) -> bool,
    missingEquals: (Method, Method) -> bool,
    dupKeywordRest: ObjId -> ObjId,
    filename: Method -> Option<string>,
    line: Method -> int,
    methodClass: ModuleId,
    unboundMethodClass: ModuleId)
}
