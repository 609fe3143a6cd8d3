/** The method object as the heap object it is: `newMethod` fills in its
    fields, `clone` builds a second object and copies the metaclass over,
    `call` with an argument array rewrites the array's last slot in place,
    and `inspect` appends the display string piece by piece.  Each is proved
    against the value-level definitions of MethodValues and MethodInspect. */
module MethodObjects {
  import opened Runtime
  import opened MethodValues
  import opened MethodInspect

  class RubyMethod {
    var receiver: Option<ObjId>
    var implementationModule: ModuleId
    var methodName: string
    var originModule: ModuleId
    var originName: string
    var entry: CacheEntry
    var descriptor: Method
    var sourceModule: ModuleId
    var metaClass: ModuleId

    /** The object's fields as a value. */
    function Value(): (v: MethodValue)
      reads this
      ensures v.receiver == receiver && v.descriptor == descriptor && v.metaClass == metaClass
    {
      MethodValue(receiver, implementationModule, methodName, originModule, originName,
                  entry, descriptor, sourceModule, metaClass)
    }

    /** The object invariant `newMethod` establishes. */
    predicate Valid()
      reads this
    {
      WellFormed(Value())
    }

    /** `newMethod`. */
    constructor NewMethod(implementationModule: ModuleId, methodName: string, originModule: ModuleId,
                          originName: string, entry: CacheEntry, receiver: Option<ObjId>, w: World)
      ensures Valid()
      ensures Value() == MethodValues.NewMethod(implementationModule, methodName, originModule,
                                                originName, entry, receiver, w)
    {
      this.metaClass := w.methodClass;
      this.implementationModule := implementationModule;
      this.methodName := methodName;
      this.originModule := originModule;
      this.originName := originName;
      this.entry := entry;
      this.descriptor := entry.descriptor;
      this.sourceModule := entry.sourceModule;
      this.receiver := receiver;
    }

    /** `setMetaClass`. */
    method SetMetaClass(m: ModuleId)
      modifies this`metaClass
      ensures Value() == old(Value()).(metaClass := m)
    {
      metaClass := m;
    }

    /** `clone`: a new object with the same fields and metaclass. */
    method Clone(w: World) returns (c: RubyMethod)
      requires Valid()
      ensures fresh(c) && c.Valid()
      ensures c.Value() == MethodValues.Clone(Value(), w) == Value()
    {
      c := new RubyMethod.NewMethod(implementationModule, methodName, originModule, originName,
                                    entry, receiver, w);
      c.SetMetaClass(metaClass);
    }

    /** `call(args[])`: the last argument goes through the keyword-rest
        duplication in place, then everything is handed to the descriptor. */
    method CallWithArgs(args: array<ObjId>, w: World) returns (call: Invocation)
      modifies args
      ensures args[..] == ForwardedArgs(old(args[..]), w)
      ensures call == Dispatch(Value(), args[..])
    {
      if args.Length > 0 {
        args[args.Length - 1] := w.dupKeywordRest(args[args.Length - 1]);
      }
      call := Dispatch(Value(), args[..]);
    }

    /** `inspect` / `to_s`: the display string, appended piece by piece to
        one growing string.  The sections are split into the helpers below,
        each appending its part. */
    method Inspect(w: World, params: seq<string>) returns (s: string)
      ensures s == InspectString(Value(), w, params)
    {
      var str := "#<";
      str := str + w.typeName(metaClass) + ": ";
      var owner, sharp := InspectOwner(w);
      str := str + owner;
      str := str + sharp;
      str := AppendNames(str);
      str := str + "(";
      var joined := JoinParameters(params);
      str := str + joined;
      str := str + ")";
      str := AppendLocation(str, w);
      str := str + ">";
      s := str;
    }

    /** The exposed name, the real name when it differs, and the
        not-implemented marker, appended to `str`. */
    method AppendNames(str: string) returns (r: string)
      ensures r == str + NamePart(Value()) + NotImplementedPart(Value())
    {
      ghost var v := Value();
      var name, d := methodName, descriptor;
      r := str + name;
      if name != d.attrs.name {
        r := r + "(";
        r := r + Real(d).attrs.name;
        r := r + ")";
        assert r == str + NamePart(v);
      }
      ghost var named := r;
      if d.attrs.notImplemented {
        r := r + " (not-implemented)";
      }
      assert r == named + NotImplementedPart(v);
    }

    /** ` file:line` when the descriptor has a file, appended to `str`. */
    method AppendLocation(str: string, w: World) returns (r: string)
      ensures r == str + LocationPart(Value(), w)
    {
      r := str;
      match w.filename(descriptor) {
        case Some(fileName) =>
          r := r + " ";
          r := r + fileName + ":" + IntToDecimal(w.line(descriptor));
        case None =>
      }
    }

    /** The owner section of `inspect`: the defining class, the receiver or
        attached object, and the separator `sharp` that starts as `#`. */
    method InspectOwner(w: World) returns (str: string, sharp: string)
      ensures str == OwnerPart(Value(), w).text && sharp == OwnerPart(Value(), w).sharp
    {
      str := "";
      sharp := "#";
      var definedClass: ModuleId;
      var mklass := originModule;
      if IsWrapper(descriptor) {
        definedClass := Real(descriptor).attrs.definedClass;
      } else {
        definedClass := descriptor.attrs.definedClass;
      }
      if w.isIncluded(definedClass) {
        definedClass := w.metaClassOf(definedClass);
      }
      ghost var v := Value();
      assert definedClass == ShownDefinedClass(v, w);
      if w.isSingleton(mklass) {
        var attached := w.attached(mklass);
        if receiver.None? {
          str := str + w.inspectModule(mklass);
        } else if receiver.value == attached {
          str := str + w.inspectObject(attached);
          sharp := ".";
        } else {
          str := str + w.inspectObject(receiver.value);
          str := str + "(";
          str := str + w.inspectObject(attached);
          str := str + ")";
          sharp := ".";
        }
      } else {
        if receiver.Some? && w.classOf(receiver.value).Some? {
          str := str + "#<";
          str := str + w.rubyName(mklass);
          str := str + ":";
          str := str + w.rubyName(w.classOf(receiver.value).value);
          str := str + ">";
        } else {
          str := str + w.rubyName(mklass);
        }
        assert str == OwnerBase(v, w);
        if definedClass != mklass {
          str := str + "(";
          str := str + w.rubyName(definedClass);
          str := str + ")";
        }
      }
    }
  }

  /** The parameter loop of `inspect`: the first name, then `, ` and the
      next name for each further one. */
  method JoinParameters(params: seq<string>) returns (str: string)
    ensures str == Join(params)
  {
    str := "";
    if |params| > 0 {
      str := str + params[0];
      var i := 1;
      while i < |params|
        invariant 1 <= i <= |params|
        invariant str == Join(params[..i])
      {
        assert params[..i + 1][..i] == params[..i];
        str := str + ", ";
        str := str + params[i];
        i := i + 1;
      }
      assert params[..|params|] == params;
    }
  }

  /** What a caller holding a method object and its clone can conclude. */
  method CloneThenCompare(m: RubyMethod, w: World) returns (c: RubyMethod, same: bool)
    requires m.Valid() && !m.descriptor.ProcBacked?
    ensures fresh(c) && c.Value() == m.Value()
    ensures same
  {
    c := m.Clone(w);
    CloneIsEqual(m.Value(), w);
    same := Equals(m.Value(), MethodObject(c.Value()), w);
  }
}
