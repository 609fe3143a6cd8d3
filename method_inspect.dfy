/** The display string of a method object (`inspect` / `to_s`):
    `#<Type: Owner#name(real) (not-implemented)(params) file:line>`, specified
    here as a composition of pieces, with the facts a reader of the string
    relies on proved about it.  The step-by-step construction is the method
    `RubyMethod.Inspect` in MethodObjects. */
module MethodInspect {
  import opened Runtime
  import opened MethodValues

  // ---------------------------------------------------------------------
  // Decimal text of a Java int (`"" + getLine()`)

  function Digit(d: nat): (c: char)
    requires d < 10
    ensures '0' <= c <= '9' && c as int - '0' as int == d
  {
    ('0' as int + d) as char
  }

  predicate IsDigits(s: string) {
    forall i :: 0 <= i < |s| ==> '0' <= s[i] <= '9'
  }

  function NatToDecimal(n: nat): (s: string)
    ensures |s| > 0 && IsDigits(s)
  {
    if n < 10 then [Digit(n)] else NatToDecimal(n / 10) + [Digit(n % 10)]
  }

  /** Java's decimal form of an integer: a minus sign for negatives. */
  function IntToDecimal(i: int): (s: string)
    ensures |s| > 0 && '0' <= s[|s| - 1] <= '9'
  {
    if i < 0 then "-" + NatToDecimal(-i) else NatToDecimal(i)
  }

  /** Reads back a string of digits. */
  function ParseDigits(s: string): int {
    if |s| == 0 then 0 else ParseDigits(s[..|s| - 1]) * 10 + (s[|s| - 1] as int - '0' as int)
  }

  function ParseDecimal(s: string): int {
    if |s| > 0 && s[0] == '-' then -ParseDigits(s[1..]) else ParseDigits(s)
  }

  lemma {:induction false} NatToDecimalRoundTrip(n: nat)
    ensures ParseDigits(NatToDecimal(n)) == n
  {
    if n >= 10 {
      NatToDecimalRoundTrip(n / 10);
      var s := NatToDecimal(n);
      assert s[..|s| - 1] == NatToDecimal(n / 10);
    }
  }

  lemma ParseNegative(digits: string, n: int)
    requires ParseDigits(digits) == n
    ensures ParseDecimal("-" + digits) == -n
  {
    assert ("-" + digits)[1..] == digits;
  }

  lemma ParseUnsigned(digits: string)
    requires |digits| > 0 && '0' <= digits[0] <= '9'
    ensures ParseDecimal(digits) == ParseDigits(digits)
  {
  }

  lemma NegativeRoundTrip(i: int)
    requires i < 0
    ensures ParseDecimal(IntToDecimal(i)) == i
  {
    var digits := NatToDecimal(-i);
    assert IntToDecimal(i) == "-" + digits;
    NatToDecimalRoundTrip(-i);
    ParseNegative(digits, -i);
  }

  lemma NonNegativeRoundTrip(i: int)
    requires i >= 0
    ensures ParseDecimal(IntToDecimal(i)) == i
  {
    var digits := NatToDecimal(i);
    assert IntToDecimal(i) == digits;
    NatToDecimalRoundTrip(i);
    ParseUnsigned(digits);
  }

  /** The line number printed by `inspect` reads back as the line. */
  lemma IntToDecimalRoundTrip(i: int)
    ensures ParseDecimal(IntToDecimal(i)) == i
  {
    if i < 0 {
      NegativeRoundTrip(i);
    } else {
      NonNegativeRoundTrip(i);
    }
  }

  // ---------------------------------------------------------------------
  // The parameter list, joined with ", "

  function Join(names: seq<string>): string {
    if |names| == 0 then ""
    else if |names| == 1 then names[0]
    else Join(names[..|names| - 1]) + ", " + names[|names| - 1]
  }

  /** The position of the last comma, or -1. */
  function LastComma(s: string): (k: int)
    ensures -1 <= k < |s|
    ensures k >= 0 ==> s[k] == ','
    ensures forall j :: k < j < |s| ==> s[j] != ','
  {
    if |s| == 0 then -1
    else if s[|s| - 1] == ',' then |s| - 1
    else LastComma(s[..|s| - 1])
  }

  /** Cuts a joined list back into its names, at each comma and the one
      space after it. */
  function Split(s: string): seq<string>
    decreases |s|
  {
    var k := LastComma(s);
    if k < 0 then [s]
    else if k + 1 < |s| && s[k + 1] == ' ' then Split(s[..k]) + [s[k + 2..]]
    else Split(s[..k]) + [s[k + 1..]]
  }

  lemma LastCommaAt(front: string, back: string)
    requires ',' !in back
    ensures LastComma(front + "," + back) == |front|
  {
    var s := front + "," + back;
    var k := LastComma(s);
    assert s[|front|] == ',';
  }

  /** Parameter names contain no comma, so the list can be read back. */
  lemma {:induction false} SplitJoin(names: seq<string>)
    requires |names| > 0
    requires forall i :: 0 <= i < |names| ==> ',' !in names[i]
    ensures Split(Join(names)) == names
  {
    if |names| == 1 {
      var s := Join(names);
      assert s == names[0];
    } else {
      var front := names[..|names| - 1];
      var last := names[|names| - 1];
      var s := Join(names);
      assert s == Join(front) + "," + (" " + last);
      assert ',' !in " " + last;
      LastCommaAt(Join(front), " " + last);
      var k := |Join(front)|;
      assert s[..k] == Join(front);
      assert s[k + 2..] == last;
      SplitJoin(front);
    }
  }

  // ---------------------------------------------------------------------
  // The pieces of the display string

  /** The defining class shown: the real descriptor's for aliases and
      delegating wrappers, the descriptor's own otherwise; an included
      module's wrapper is replaced by its metaclass. */
  function ShownDefinedClass(v: MethodValue, w: World): ModuleId {
    var d := if IsWrapper(v.descriptor) then Real(v.descriptor).attrs.definedClass
             else v.descriptor.attrs.definedClass;
    if w.isIncluded(d) then w.metaClassOf(d) else d
  }

  /** The owner text for a non-singleton origin, before the defining-class
      note: `#<Origin:Receiver>` when the receiver is a class. */
  function OwnerBase(v: MethodValue, w: World): string {
    if v.receiver.Some? && w.classOf(v.receiver.value).Some? then
      "#<" + w.rubyName(v.originModule) + ":" + w.rubyName(w.classOf(v.receiver.value).value) + ">"
    else
      w.rubyName(v.originModule)
  }

  /** The owner text and the separator before the method name. */
  datatype Owner = Owner(text: string, sharp: string)

  function OwnerPart(v: MethodValue, w: World): Owner {
    var mklass := v.originModule;
    if w.isSingleton(mklass) then
      var attached := w.attached(mklass);
      if v.receiver.None? then
        Owner(w.inspectModule(mklass), "#")
      else if v.receiver.value == attached then
        Owner(w.inspectObject(attached), ".")
      else
        Owner(w.inspectObject(v.receiver.value) + "(" + w.inspectObject(attached) + ")", ".")
    else
      var defined := ShownDefinedClass(v, w);
      if defined != mklass then Owner(OwnerBase(v, w) + "(" + w.rubyName(defined) + ")", "#")
      else Owner(OwnerBase(v, w), "#")
  }

  /** The exposed name, then the real name in parentheses when they differ. */
  function NamePart(v: MethodValue): string {
    if v.methodName != v.descriptor.attrs.name then
      v.methodName + "(" + Real(v.descriptor).attrs.name + ")"
    else
      v.methodName
  }

  function NotImplementedPart(v: MethodValue): string {
    if v.descriptor.attrs.notImplemented then " (not-implemented)" else ""
  }

  function LocationPart(v: MethodValue, w: World): string {
    match w.filename(v.descriptor)
    case None => ""
    case Some(f) => " " + f + ":" + IntToDecimal(w.line(v.descriptor))
  }

  function Header(v: MethodValue, w: World): string {
    "#<" + w.typeName(v.metaClass) + ": "
  }

  /** Owner, separator, names and the not-implemented marker. */
  function Middle(v: MethodValue, w: World): string {
    var owner := OwnerPart(v, w);
    owner.text + owner.sharp + NamePart(v) + NotImplementedPart(v)
  }

  /** The parameter list, the location and the closing bracket. */
  function Trailer(v: MethodValue, w: World, params: seq<string>): string {
    "(" + Join(params) + ")" + LocationPart(v, w) + ">"
  }

  /** The whole display string; `params` are the parameter names the
      descriptor's argument descriptors render to. */
  function InspectString(v: MethodValue, w: World, params: seq<string>): string {
    Header(v, w) + OwnerPart(v, w).text + OwnerPart(v, w).sharp + NamePart(v) + NotImplementedPart(v)
      + "(" + Join(params) + ")" + LocationPart(v, w) + ">"
  }

  /** The display string as header, middle and trailer. */
  lemma InspectSections(v: MethodValue, w: World, params: seq<string>)
    ensures InspectString(v, w, params) == Header(v, w) + Middle(v, w) + Trailer(v, w, params)
  {
    Regroup(Header(v, w), OwnerPart(v, w).text, OwnerPart(v, w).sharp, NamePart(v),
            NotImplementedPart(v), Join(params), LocationPart(v, w));
  }

  lemma Regroup(h: string, a: string, b: string, c: string, d: string, j: string, l: string)
    ensures h + a + b + c + d + "(" + j + ")" + l + ">" ==
            h + (a + b + c + d) + ("(" + j + ")" + l + ">")
  {
    var t := "(" + j + ")" + l + ">";
    calc {
      h + a + b + c + d + "(" + j + ")" + l + ">";
      h + a + b + c + d + t;
      h + (a + b + c + d) + t;
    }
  }

  lemma EndsWith(a: string, b: string)
    ensures |a + b| >= |b| && (a + b)[|a + b| - |b|..] == b
  {
  }

  // ---------------------------------------------------------------------
  // What the display string shows

  /** It opens with `#<Type: ` and closes with `>`. */
  lemma InspectFraming(v: MethodValue, w: World, params: seq<string>)
    ensures var s := InspectString(v, w, params);
            |s| > |Header(v, w)| && s[..|Header(v, w)|] == Header(v, w) && s[|s| - 1] == '>'
  {
    InspectSections(v, w, params);
    var h, m, t := Header(v, w), Middle(v, w), Trailer(v, w, params);
    var s := h + m + t;
    assert s == h + (m + t);
    assert t == ("(" + Join(params) + ")" + LocationPart(v, w)) + ">";
    assert t[|t| - 1] == '>';
    assert s[|s| - 1] == t[|t| - 1];
  }

  /** The separator is `.` exactly for a bound method of a singleton
      class, `#` otherwise. */
  lemma SeparatorIsDotIffSingletonBound(v: MethodValue, w: World)
    ensures OwnerPart(v, w).sharp == "." <==> w.isSingleton(v.originModule) && v.receiver.Some?
    ensures OwnerPart(v, w).sharp == "." || OwnerPart(v, w).sharp == "#"
  {
  }

  /** For an ordinary origin, the defining class is added in parentheses
      exactly when it differs from the origin module. */
  lemma DefinedClassShownIffDiffers(v: MethodValue, w: World)
    requires !w.isSingleton(v.originModule)
    ensures OwnerPart(v, w).text == OwnerBase(v, w) + "(" + w.rubyName(ShownDefinedClass(v, w)) + ")"
            <==> ShownDefinedClass(v, w) != v.originModule
    ensures OwnerPart(v, w).text == OwnerBase(v, w) <==> ShownDefinedClass(v, w) == v.originModule
  {
    var base := OwnerBase(v, w);
    var note := "(" + w.rubyName(ShownDefinedClass(v, w)) + ")";
    if ShownDefinedClass(v, w) == v.originModule {
      assert |base + note| > |base|;
    } else {
      assert |base + note| > |base|;
    }
  }

  /** The real name is added in parentheses exactly when the exposed name
      differs from the descriptor's name. */
  lemma RealNameShownIffRenamed(v: MethodValue)
    ensures NamePart(v) == v.methodName <==> v.methodName == v.descriptor.attrs.name
    ensures v.methodName != v.descriptor.attrs.name ==>
              NamePart(v) == v.methodName + "(" + Real(v.descriptor).attrs.name + ")"
  {
    if v.methodName != v.descriptor.attrs.name {
      assert |NamePart(v)| > |v.methodName|;
    }
  }

  /** A stub shows ` (not-implemented)` right before its parameter list. */
  lemma NotImplementedMarker(v: MethodValue, w: World, params: seq<string>)
    requires v.descriptor.attrs.notImplemented
    ensures var s := InspectString(v, w, params);
            var tail := " (not-implemented)" + Trailer(v, w, params);
            |s| >= |tail| && s[|s| - |tail|..] == tail
  {
    var owner := OwnerPart(v, w);
    var h, front, t := Header(v, w), owner.text + owner.sharp + NamePart(v), Trailer(v, w, params);
    var marker := " (not-implemented)";
    InspectSections(v, w, params);
    assert Middle(v, w) == front + marker;
    Reassociate(h, front, marker, t);
    EndsWith(h + front, marker + t);
  }

  lemma Reassociate(h: string, f: string, x: string, t: string)
    ensures h + (f + x) + t == (h + f) + (x + t)
  {
  }

  lemma NotImplementedPartIff(v: MethodValue)
    ensures NotImplementedPart(v) != "" <==> v.descriptor.attrs.notImplemented
  {
  }

  lemma SuffixOfAppend(head: string, t: string, k: nat)
    requires k <= |t|
    ensures (head + t)[|head + t| - k..] == t[|t| - k..]
  {
  }

  /** The trailer ends in `)>` exactly when there is no file to show,
      otherwise in ` file:line>`. */
  lemma TrailerLocation(v: MethodValue, w: World, params: seq<string>)
    ensures var t := Trailer(v, w, params);
            |t| >= 2 &&
            (w.filename(v.descriptor).None? <==> t[|t| - 2] == ')') &&
            (w.filename(v.descriptor).Some? ==>
               var loc := " " + w.filename(v.descriptor).value + ":" + IntToDecimal(w.line(v.descriptor)) + ">";
               |t| >= |loc| && t[|t| - |loc|..] == loc)
  {
    var list := "(" + Join(params) + ")";
    var t := Trailer(v, w, params);
    match w.filename(v.descriptor)
    case None =>
      assert t == list + ">";
    case Some(f) =>
      var dec := IntToDecimal(w.line(v.descriptor));
      var loc := " " + f + ":" + dec + ">";
      assert LocationPart(v, w) == " " + f + ":" + dec;
      assert t == list + loc;
      EndsWith(list, loc);
      assert t[|t| - 2] == dec[|dec| - 1];
  }

  /** The string ends in `)>` exactly when there is no file to show,
      otherwise in ` file:line>`; it agrees with `source_location`. */
  lemma InspectLocationAgreesWithSourceLocation(v: MethodValue, w: World, params: seq<string>)
    ensures var s := InspectString(v, w, params);
            |s| >= 2 &&
            (SourceLocation(v, w).None? <==> s[|s| - 2] == ')') &&
            (SourceLocation(v, w).Some? ==>
               var loc := " " + SourceLocation(v, w).value.file + ":" +
                          IntToDecimal(SourceLocation(v, w).value.line) + ">";
               |s| >= |loc| && s[|s| - |loc|..] == loc)
  {
    var head := Header(v, w) + Middle(v, w);
    var t := Trailer(v, w, params);
    InspectSections(v, w, params);
    TrailerLocation(v, w, params);
    SuffixOfAppend(head, t, 2);
    if w.filename(v.descriptor).Some? {
      var loc := " " + w.filename(v.descriptor).value + ":" + IntToDecimal(w.line(v.descriptor)) + ">";
      SuffixOfAppend(head, t, |loc|);
    }
  }
}
