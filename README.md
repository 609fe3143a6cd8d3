# Ruby `Method` objects and two parse-tree nodes, modelled in Dafny

This project models the bound method object of JRuby (`RubyMethod`) and two
nodes of the Truffle Ruby parse tree (`RescueParseNode`, `SuperParseNode`),
and proves what their operations promise.

- `runtime.dfy` (module `Runtime`) holds the collaborators a method object
  only calls and never defines:
  - object and module identities;
  - the method descriptor (`DynamicMethod`) as a tagged datatype: plain,
    alias, partially or fully delegating wrapper, Proc-backed, or
    respond-to-missing;
  - `getRealMethod` as `Real`;
  - Java's `long`/`int` wrap-around as `ToLong`/`ToInt`;
  - the `World` of opaque hierarchy and object queries (`getSuperClass`,
    `findImplementer`, `isSingleton`, `rubyName`, `inspect(obj)`,
    `hashCode`, `ProcMethod.isSame`, `getFilename`/`getLine`, …) as
    function-valued fields. Every proof holds for every answer those
    queries could give.
- `method_value.dfy` (module `MethodValues`) holds the fields of a method
  object as a value. It covers the decisions made over them: `newMethod`,
  `==`/`eql?`/`equals`, `hash`/`hashCode`, `clone`, `unbind`, `arity`,
  `original_name`, `source_location`, the start of `super_method`, and the
  arguments each `call` overload forwards.
- `method_inspect.dfy` (module `MethodInspect`) specifies the display string
  of `inspect`/`to_s` piece by piece. It proves what a reader of that string
  can rely on.
- `method_object.dfy` (module `MethodObjects`) models the method object as
  the heap object it is, a class `RubyMethod` with these operations:
  - the `newMethod` constructor;
  - `setMetaClass` and `clone`;
  - `call` with an argument array, which overwrites the array's last slot
    in place;
  - `inspect`, which appends to one growing string, with the parameter loop
    and the mutable `#`/`.` separator.

  Each operation is proved against the value-level definitions.
- `parse_nodes.dfy` (module `ParseNodes`) holds the two parse nodes:
  - `RescueParseNode` has only final fields, so it is a datatype. Its
    getters are the datatype's fields.
  - `SuperParseNode` has a block node that `setIterNode` replaces, so it is
    a class. The rest of its state is `const`.

## Model

| member | source | states |
|---|---|---|
| Runtime.ToLong | core/src/main/java/org/jruby/RubyMethod.java:211-213 | a Java `long` result is the exact value reduced modulo 2^64 into the signed range, and is the value itself when it fits |
| Runtime.ToInt | core/src/main/java/org/jruby/RubyMethod.java:207-209 | the `(int)` cast keeps the value modulo 2^32 in the signed range, and is the identity on values that fit |
| MethodValues.NewMethod | core/src/main/java/org/jruby/RubyMethod.java:93-113 | the new value carries the given modules, names, entry and receiver; its descriptor and source module are the cache entry's; its metaclass is `Method` |
| MethodObjects.RubyMethod.NewMethod | core/src/main/java/org/jruby/RubyMethod.java:93-113 | `newMethod` builds an object whose fields are those of `MethodValues.NewMethod` and which keeps the entry invariant |
| MethodObjects.RubyMethod.SetMetaClass | core/src/main/java/org/jruby/RubyMethod.java:219 | only the metaclass changes |
| MethodValues.Clone | core/src/main/java/org/jruby/RubyMethod.java:215-221 | a clone is well formed, and for a well-formed original it is identical in every field, the metaclass included |
| MethodObjects.RubyMethod.Clone | core/src/main/java/org/jruby/RubyMethod.java:215-221 | `clone` returns a fresh, well-formed object with exactly the original's fields |
| MethodValues.CloneIsEqual | core/src/main/java/org/jruby/RubyMethod.java:215-221 | outside the Proc case a clone is `equals` to its original, in both directions |
| MethodObjects.CloneThenCompare | core/src/main/java/org/jruby/RubyMethod.java:215-221 | a caller that clones a non-Proc method object holds a fresh object that compares equal to the original |
| MethodValues.Unbind | core/src/main/java/org/jruby/RubyMethod.java:249-255 | the unbound value has no receiver and class `UnboundMethod`, keeps the modules, names and entry, and on a well-formed value keeps the descriptor and source module |
| MethodValues.UnbindKeepsDescriptorQueries | core/src/main/java/org/jruby/RubyMethod.java:249-255 | unbinding changes none of `arity` (the descriptor's own arity), `original_name`, `source_location` or the `super_method` start |
| MethodValues.UnbindForgetsReceiver | core/src/main/java/org/jruby/RubyMethod.java:249-255 | method objects that differ only in receiver and metaclass unbind to the same value |
| MethodValues.Arity | core/src/main/java/org/jruby/RubyMethod.java:153-156 | the arity of the descriptor itself (the cache entry's descriptor, not the unwrapped one) |
| MethodValues.OriginalName | core/src/main/java/org/jruby/RubyMethod.java:396-402 | an alias answers with its old name, every other descriptor with the exposed method name |
| MethodValues.SuperMethodStart | core/src/main/java/org/jruby/RubyMethod.java:380-392 | the plain path starts at the source module's superclass; the alias path at the implementer's superclass, or null without an implementer |
| MethodValues.Dispatch | core/src/main/java/org/jruby/RubyMethod.java:146 | the invocation carries this object's descriptor, receiver, source module and name, and exactly the given arguments |
| Runtime.Real | core/src/main/java/org/jruby/RubyMethod.java:197-199 | `getRealMethod` returns a descriptor that is not a wrapper, and leaves such a descriptor unchanged |
| MethodValues.EqlAgreesWithEqual | core/src/main/java/org/jruby/RubyMethod.java:158-168 | `eql?`, `==` and `equals` always give the same answer |
| MethodValues.Equals | core/src/main/java/org/jruby/RubyMethod.java:176-190 | only a method object can be equal; outside the Proc case, equal objects share metaclass, receiver and origin module |
| MethodValues.OpEqual | core/src/main/java/org/jruby/RubyMethod.java:163-167 | `==` answers exactly what `equals` answers |
| MethodValues.OpEql | core/src/main/java/org/jruby/RubyMethod.java:158-161 | `eql?` answers exactly what `equals` answers |
| MethodValues.IsSerialMatch | core/src/main/java/org/jruby/RubyMethod.java:197-199 | the real serials agree, and unwrapping the other descriptor beforehand changes nothing |
| MethodValues.IsMethodMissingMatch | core/src/main/java/org/jruby/RubyMethod.java:192-195 | never holds unless this real descriptor is a respond-to-missing one |
| MethodValues.ProcEqualityIsSameOnly | core/src/main/java/org/jruby/RubyMethod.java:180-182 | for a Proc-backed descriptor, equality is exactly `isSame` on the other descriptor; receiver, origin and metaclass are not consulted |
| MethodValues.NonProcEqualityRule | core/src/main/java/org/jruby/RubyMethod.java:183-199 | for other descriptors, equal holds iff the metaclasses, receivers and origin modules are the same and either the real serials match or this real descriptor is respond-to-missing and equals the other's |
| MethodValues.MetaClassMismatchIsUnequal | core/src/main/java/org/jruby/RubyMethod.java:183-185 | outside the Proc case, differing metaclasses force inequality |
| MethodValues.EqualsReflexive | core/src/main/java/org/jruby/RubyMethod.java:176-199 | outside the Proc case a method object equals itself |
| MethodValues.SameRealMethodIsEqual | core/src/main/java/org/jruby/RubyMethod.java:187-199 | same receiver, origin and metaclass plus the same real descriptor give equality in both directions, for descriptors that are not Proc-backed |
| MethodValues.AliasEqualsTarget | core/src/main/java/org/jruby/RubyMethod.java:187-199 | outside the Proc case, a method object reached through an alias equals the one for the aliased descriptor, both ways |
| MethodValues.RedefinitionIsUnequal | core/src/main/java/org/jruby/RubyMethod.java:187-199 | outside the Proc case, different real serials make the objects unequal unless this real descriptor is respond-to-missing |
| MethodValues.EqualsSymmetric | core/src/main/java/org/jruby/RubyMethod.java:176-199 | without Proc-backed or respond-to-missing descriptors, equality is symmetric |
| MethodValues.EqualsTransitive | core/src/main/java/org/jruby/RubyMethod.java:176-199 | without Proc-backed or respond-to-missing descriptors, equality is transitive |
| MethodValues.IntOfLong | core/src/main/java/org/jruby/RubyMethod.java:207-213 | casting the wrapped `long` product to `int` gives the low 32 bits of the exact product |
| MethodValues.HashCodeImpl | core/src/main/java/org/jruby/RubyMethod.java:211-213 | a hash exists exactly when there is a receiver (a null receiver raises), and it is the receiver's hash times the real descriptor's serial, wrapped to a Java `long` |
| MethodValues.HashCode | core/src/main/java/org/jruby/RubyMethod.java:201-213 | `hashCode` is the receiver's hash times the real descriptor's serial, cut to a Java `int`, whatever the `long` overflow did |
| MethodValues.EqualValuesHashEqually | core/src/main/java/org/jruby/RubyMethod.java:176-213 | outside the Proc and respond-to-missing cases, equal method objects have equal `hash` and `hashCode` |
| MethodValues.ProcEqualityIgnoresHash | core/src/main/java/org/jruby/RubyMethod.java:176-213 | a witness: two objects over one Proc-backed descriptor (serial 1, `isSame` reflexive) whose receivers hash differently are equal, yet their `hashCode`s differ |
| MethodValues.OriginalNameOfAlias | core/src/main/java/org/jruby/RubyMethod.java:396-400 | for an alias, `original_name` is the alias's old name whatever name it is exposed under |
| MethodValues.SourceLocation | core/src/main/java/org/jruby/RubyMethod.java:351-361 | a location exists exactly when the descriptor has a file, and then it holds that file and the descriptor's line |
| MethodValues.SuperMethod | core/src/main/java/org/jruby/RubyMethod.java:380-394 | the receiver is passed on; the start is the source module's superclass for all but alias and partially delegating descriptors; for those it is the superclass of the module implementing the real descriptor, or null when none is found |
| MethodValues.AliasPathAgreesWithPlainPath | core/src/main/java/org/jruby/RubyMethod.java:382-391 | when the source module itself implements the real descriptor, both paths give the same start |
| MethodValues.AliasPathDependsOnlyOnReal | core/src/main/java/org/jruby/RubyMethod.java:382-389 | on the alias path, only the real descriptor matters, not the wrapper chain |
| MethodValues.FullDelegatingTakesPlainPath | core/src/main/java/org/jruby/RubyMethod.java:382-391 | a fully delegating wrapper takes the plain path |
| MethodValues.ForwardedArgs | core/src/main/java/org/jruby/RubyMethod.java:140-147 | the forwarded list has the same length, every argument but the last unchanged, and the last passed through the keyword-rest duplication; an empty list stays empty |
| MethodValues.Call0 | core/src/main/java/org/jruby/RubyMethod.java:118-121 | the zero-argument `call` forwards what the array overload forwards for no arguments |
| MethodValues.Call1 | core/src/main/java/org/jruby/RubyMethod.java:122-127 | the one-argument `call` forwards what the array overload forwards |
| MethodValues.Call2 | core/src/main/java/org/jruby/RubyMethod.java:128-133 | the two-argument `call` forwards what the array overload forwards |
| MethodValues.Call3 | core/src/main/java/org/jruby/RubyMethod.java:134-139 | the three-argument `call` forwards what the array overload forwards |
| MethodObjects.RubyMethod.CallWithArgs | core/src/main/java/org/jruby/RubyMethod.java:140-147 | the array is rewritten in place to the forwarded list, and the descriptor is invoked with this object's receiver, source module, name and that array |
| MethodInspect.NatToDecimalRoundTrip | core/src/main/java/org/jruby/RubyMethod.java:339 | the decimal digits of a natural number read back as that number |
| MethodInspect.IntToDecimalRoundTrip | core/src/main/java/org/jruby/RubyMethod.java:339 | the line number printed by `"" + getLine()` reads back as the line, negative numbers included |
| MethodInspect.SplitJoin | core/src/main/java/org/jruby/RubyMethod.java:322-335 | a non-empty list of names without commas, joined with `, `, splits back into the same list |
| MethodInspect.InspectSections | core/src/main/java/org/jruby/RubyMethod.java:263-343 | the display string is the header, then the owner/name section, then the parameter/location section |
| MethodInspect.InspectString | core/src/main/java/org/jruby/RubyMethod.java:257-344 | the display string: header, owner, separator, names, marker, parameter list, location and `>`, in that order; what it promises is stated by the lemmas in the rows around this one |
| MethodInspect.InspectFraming | core/src/main/java/org/jruby/RubyMethod.java:263-343 | the string starts with `#<` + type name + `: ` and ends with `>` |
| MethodInspect.SeparatorIsDotIffSingletonBound | core/src/main/java/org/jruby/RubyMethod.java:264-311 | the separator is `.` exactly for a bound method of a singleton class, and `#` otherwise |
| MethodInspect.DefinedClassShownIffDiffers | core/src/main/java/org/jruby/RubyMethod.java:268-310 | for an ordinary class, the defining class is appended in parentheses exactly when it differs from the origin module |
| MethodInspect.RealNameShownIffRenamed | core/src/main/java/org/jruby/RubyMethod.java:312-317 | the real name is appended in parentheses exactly when the exposed name differs from the descriptor's name |
| MethodInspect.NotImplementedPartIff | core/src/main/java/org/jruby/RubyMethod.java:318-320 | the not-implemented marker is present exactly for a not-implemented descriptor |
| MethodInspect.NotImplementedMarker | core/src/main/java/org/jruby/RubyMethod.java:318-341 | for a stub, ` (not-implemented)` comes right before the parameter list and what follows it |
| MethodInspect.TrailerLocation | core/src/main/java/org/jruby/RubyMethod.java:322-341 | the closing section ends in `)>` exactly when there is no file, and otherwise in ` file:line>` |
| MethodInspect.InspectLocationAgreesWithSourceLocation | core/src/main/java/org/jruby/RubyMethod.java:336-361 | the display string ends in ` file:line>` exactly when `source_location` is `[file, line]`, and in `)>` exactly when it is `nil` |
| MethodObjects.RubyMethod.Inspect | core/src/main/java/org/jruby/RubyMethod.java:257-344 | the appended string equals the display string specified in `MethodInspect` |
| MethodObjects.RubyMethod.InspectOwner | core/src/main/java/org/jruby/RubyMethod.java:264-310 | the owner text and the separator built step by step are those of the specification |
| MethodObjects.RubyMethod.AppendNames | core/src/main/java/org/jruby/RubyMethod.java:311-320 | appends the exposed name, the real name when renamed, and the not-implemented marker |
| MethodObjects.RubyMethod.AppendLocation | core/src/main/java/org/jruby/RubyMethod.java:336-340 | appends ` file:line` exactly when there is a file |
| MethodObjects.JoinParameters | core/src/main/java/org/jruby/RubyMethod.java:322-335 | the loop over the descriptors produces the names joined with `, ` |
| ParseNodes.RescueChildNodes | truffle/src/main/java/org/jruby/truffle/parser/ast/RescueParseNode.java:93-95 | the children are rescue, body, else, in that order; as a multiset they are exactly the three constructor arguments |
| ParseNodes.RescueContainsVariableAssignment | truffle/src/main/java/org/jruby/truffle/parser/ast/RescueParseNode.java:48-55 | the flag holds exactly when some entry of `childNodes` is present and assigns a variable |
| ParseNodes.RescueFlagIgnoresOrder | truffle/src/main/java/org/jruby/truffle/parser/ast/RescueParseNode.java:48-51 | the flag is the same disjunction in field order (body, rescue, else) |
| ParseNodes.RescueNodeType | truffle/src/main/java/org/jruby/truffle/parser/ast/RescueParseNode.java:57-59 | the node type is always `RESCUENODE` |
| ParseNodes.RescueAccept | truffle/src/main/java/org/jruby/truffle/parser/ast/RescueParseNode.java:65-67 | `accept` returns what the visitor's rescue callback returns for this node |
| ParseNodes.RescueAcceptMatchesNodeType | truffle/src/main/java/org/jruby/truffle/parser/ast/RescueParseNode.java:57-67 | `accept` calls the visitor's rescue callback, the one for the node's own type |
| ParseNodes.SuperChildren | truffle/src/main/java/org/jruby/truffle/parser/ast/SuperParseNode.java:77-79 | `childNodes` is `[args, iter]` with a block and `[args]` without; an entry is in the list exactly when it is the arguments or the present block |
| ParseNodes.SuperFlag | truffle/src/main/java/org/jruby/truffle/parser/ast/SuperParseNode.java:50-55 | the constructor's flag holds exactly when some child in `childNodes` is present and assigns |
| ParseNodes.SuperParseNode.constructor | truffle/src/main/java/org/jruby/truffle/parser/ast/SuperParseNode.java:46-48 | the two-argument constructor stores the arguments and no block, and takes the flag of the arguments alone |
| ParseNodes.SuperParseNode.WithIter | truffle/src/main/java/org/jruby/truffle/parser/ast/SuperParseNode.java:50-55 | the three-argument constructor stores both children and sets the flag exactly when some child assigns |
| ParseNodes.TwoConstructorsAgree | truffle/src/main/java/org/jruby/truffle/parser/ast/SuperParseNode.java:46-55 | the two-argument constructor builds the same node as the three-argument one with a null block: same position, children, flag and child list |
| ParseNodes.SuperParseNode.GetArgsNode | truffle/src/main/java/org/jruby/truffle/parser/ast/SuperParseNode.java:73-75 | returns the arguments given to the constructor |
| ParseNodes.SuperParseNode.GetIterNode | truffle/src/main/java/org/jruby/truffle/parser/ast/SuperParseNode.java:81-83 | returns the current block |
| ParseNodes.SuperParseNode.ChildNodes | truffle/src/main/java/org/jruby/truffle/parser/ast/SuperParseNode.java:77-79 | the node's children are `SuperChildren` of its current arguments and block |
| ParseNodes.SuperParseNode.SetIterNode | truffle/src/main/java/org/jruby/truffle/parser/ast/SuperParseNode.java:85-89 | replaces the block, returns the node itself, and leaves the arguments and the construction-time flag as they were |
| ParseNodes.BlockAddedLater | truffle/src/main/java/org/jruby/truffle/parser/ast/SuperParseNode.java:85-89 | the flag is fixed at construction: adding an assigning block later leaves it false although a child now assigns |
| ParseNodes.SuperParseNode.GetNodeType | truffle/src/main/java/org/jruby/truffle/parser/ast/SuperParseNode.java:57-59 | the node type is always `SUPERNODE` |
| ParseNodes.SuperParseNode.Accept | truffle/src/main/java/org/jruby/truffle/parser/ast/SuperParseNode.java:65-67 | `accept` returns what the visitor's super callback returns for this node |
| ParseNodes.SuperAcceptMatchesNodeType | truffle/src/main/java/org/jruby/truffle/parser/ast/SuperParseNode.java:57-67 | `accept` calls the visitor's super callback, the one for the node's own type |

## Left out

- `createMethodClass` (RubyMethod.java:80-91) registers the `Method` class with the runtime. That is runtime plumbing. Its result appears only as `World.methodClass`.
- The invocation itself (`method.call(...)`) and `===` run code outside these files. The model records only what is forwarded: the descriptor, receiver, source module, name and arguments. The block argument is not modelled.
- `to_proc` and `curry` build `MethodBlockBody`/`RubyProc` objects and go through call sites whose behaviour is not visible. They are not modelled.
- `parameters` and `Helpers.methodToArgumentDescriptors` are foreign helpers. `inspect` takes the rendered parameter names as an input list.
- The inner `super_method(context, receiver, superClass)` lookup (AbstractRubyMethod) is not part of this model. `SuperMethod` stops at the receiver and start module it is handed.
- `RubyUnboundMethod.newUnboundMethod` is not part of this model. `Unbind` takes it to assign the fields as `newMethod` does, with no receiver and class `UnboundMethod`.
- `name(context)` (AbstractRubyMethod) is not part of this model. `OriginalName` takes it to return the exposed method name.
- `ParseNode.createList` is not part of this model. Child lists are taken to keep null entries in place, so `childNodes` is a list of optional nodes.
- `PartialDelegatingMethod` is taken to be a `DelegatingDynamicMethod`, as in JRuby. So for `inspect` it is a wrapper whose defining class comes from the real descriptor.
- The wrapper links between descriptors are arbitrary; `Real` follows them to the first descriptor that is not a wrapper. Descriptor serials, `isSame`, `RespondToMissingMethod.equals`, `dupIfKeywordRestAtCallsite`, receiver hashing, `getFilename`/`getLine`, `rubyName`, `inspect(obj)` and the hierarchy queries are uninterpreted. They are fields of `World` or attributes of the descriptor.
- Symbols and `RubyString` encodings are plain strings. `newSymbol(name).asString()` is taken to be the name itself.
- Source positions of parse nodes are carried but never inspected. The visitor callbacks are arbitrary functions; their bodies are not modelled.
- Descriptor serial numbers are taken to be non-negative Java `long`s (the `Serial` type); nothing else about them is assumed.
- `MethodValues.EqualsSymmetric`: symmetry and transitivity are stated only without Proc-backed or respond-to-missing descriptors, because there equality depends on the opaque `isSame` and `RespondToMissingMethod.equals`.
- `MethodValues.EqualValuesHashEqually`: the equal-hash property is stated only without Proc-backed or respond-to-missing descriptors. `ProcEqualityIgnoresHash` shows that it fails in the Proc case.
