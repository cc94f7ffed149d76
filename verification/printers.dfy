/** The SPIR-V reflection pretty-printers of `spirv_reflect/printers.h`:
    each writes pieces of text to an output stream, some of them only when a
    flag or an optional field says so. The stream is a string accumulator;
    each printed line is a function, and each printer is proved to append
    exactly the text its specification function describes. */
module Printers {
  import opened Common

  /** `std::ostream`: the text written so far. */
  class OStream {
    var text: string

    constructor ()
      ensures text == ""
    {
      text := "";
    }

    /** `os << s`. */
    method Write(s: string)
      modifies this
      ensures text == old(text) + s
    {
      text := text + s;
    }
  }

  function Digit(d: nat): (c: char)
    requires d < 10
    ensures '0' <= c <= '9'
  {
    (48 + d) as char
  }

  /** How `operator<<` prints an unsigned integer: its decimal digits. */
  function Decimal(n: nat): (s: string)
    ensures |s| > 0
  {
    if n < 10 then [Digit(n)] else Decimal(n / 10) + [Digit(n % 10)]
  }

  /** Every character of a printed number is a digit. */
  lemma {:induction false} DecimalIsDigits(n: nat)
    ensures forall i :: 0 <= i < |Decimal(n)| ==> '0' <= Decimal(n)[i] <= '9'
  {
    if n >= 10 {
      DecimalIsDigits(n / 10);
    }
  }

  /** Appending to a stream in two steps is appending the joined text. */
  lemma Assoc(a: string, b: string, c: string)
    ensures (a + b) + c == a + (b + c)
  {
  }

  /** Writing nothing leaves the text as it was. */
  lemma AppendNothing(a: string)
    ensures a + "" == a
  {
  }

  /** `uav_counter_binding`'s printed fields. */
  datatype CounterBinding = CounterBinding(setNumber: nat, binding: nat, name: string)

  /** The fields of `SpvReflectDescriptorBinding` the printer reads;
      `typeName` is the type description's name, `None` for a null pointer. */
  datatype DescriptorBinding = DescriptorBinding(
    binding: nat,
    setNumber: nat,
    dims: seq<nat>,
    uavCounter: Option<CounterBinding>,
    name: string,
    typeName: Option<string>)

  function BindingLine(obj: DescriptorBinding, t: string): string
  {
    t + "binding : " + Decimal(obj.binding) + "\n"
  }

  function SetLine(obj: DescriptorBinding, t: string): string
  {
    t + "set     : " + Decimal(obj.setNumber) + "\n"
  }

  /** One dimension of an array binding, in brackets. */
  function DimText(d: nat): string
  {
    "[" + Decimal(d) + "]"
  }

  /** The bracketed first `k` dimensions, in order. */
  function DimsText(dims: seq<nat>, k: nat): string
    requires k <= |dims|
  {
    if k == 0 then "" else DimsText(dims, k - 1) + DimText(dims[k - 1])
  }

  /** How many times `c` occurs in `s`. */
  function Count(s: string, c: char): (n: nat)
    ensures n <= |s|
  {
    if |s| == 0 then 0 else Count(s[..|s| - 1], c) + (if s[|s| - 1] == c then 1 else 0)
  }

  /** Counting a character in two pieces of text written one after the
      other. */
  lemma {:induction false} CountAppend(a: string, b: string, c: char)
    ensures Count(a + b, c) == Count(a, c) + Count(b, c)
    decreases |b|
  {
    if |b| == 0 {
      assert a + b == a;
    } else {
      assert (a + b)[..|a + b| - 1] == a + b[..|b| - 1];
      CountAppend(a, b[..|b| - 1], c);
    }
  }

  /** Text without `c` counts no `c`. */
  lemma {:induction false} CountAbsent(s: string, c: char)
    requires forall i :: 0 <= i < |s| ==> s[i] != c
    ensures Count(s, c) == 0
    decreases |s|
  {
    if |s| > 0 {
      CountAbsent(s[..|s| - 1], c);
    }
  }

  /** A printed number holds no '['. */
  lemma NoBracketInDecimal(n: nat)
    ensures Count(Decimal(n), '[') == 0
  {
    DecimalIsDigits(n);
    CountAbsent(Decimal(n), '[');
  }

  /** A bracketed dimension holds exactly one '['. */
  lemma OneBracketPerDim(d: nat)
    ensures Count(DimText(d), '[') == 1
  {
    NoBracketInDecimal(d);
    CountAppend("[", Decimal(d), '[');
    CountAppend("[" + Decimal(d), "]", '[');
    assert Count("[", '[') == 1 && Count("]", '[') == 0;
  }

  /** `DimsText` unfolded once. */
  lemma DimsTextStep(dims: seq<nat>, k: nat)
    requires 0 < k <= |dims|
    ensures DimsText(dims, k) == DimsText(dims, k - 1) + DimText(dims[k - 1])
  {
  }

  /** The array part has one '[' per dimension: the digits never add one. */
  lemma {:induction false} OneBracketPerDimension(dims: seq<nat>, k: nat)
    requires k <= |dims|
    ensures Count(DimsText(dims, k), '[') == k
  {
    if k > 0 {
      OneBracketPerDimension(dims, k - 1);
      OneBracketPerDim(dims[k - 1]);
      DimsTextStep(dims, k);
      CountAppend(DimsText(dims, k - 1), DimText(dims[k - 1]), '[');
    }
  }

  function ArrayHead(t: string): string
  {
    t + "array   : "
  }

  function ArrayLine(obj: DescriptorBinding, t: string): string
  {
    if |obj.dims| > 0 then ArrayHead(t) + DimsText(obj.dims, |obj.dims|) + "\n" else ""
  }

  function CounterLine(obj: DescriptorBinding, t: string): string
  {
    if obj.uavCounter.Some? then
      var c := obj.uavCounter.value;
      t + "counter : " + "(" + "set=" + Decimal(c.setNumber) + ", " + "binding=" + Decimal(c.binding) + ", "
        + "name=" + c.name + ");" + "\n"
    else ""
  }

  /** Whether the type name is printed: non-null and non-empty. */
  predicate HasTypeName(obj: DescriptorBinding)
  {
    obj.typeName.Some? && |obj.typeName.value| > 0
  }

  function NameHead(obj: DescriptorBinding, t: string): string
  {
    t + "name    : " + obj.name
  }

  function TypeNameSuffix(obj: DescriptorBinding): string
  {
    if HasTypeName(obj) then " " + "(" + obj.typeName.value + ")" else ""
  }

  /** The last line: the name, then the type name in parentheses when there
      is one to print; it is not terminated by a newline. */
  function NameLine(obj: DescriptorBinding, t: string): (r: string)
    ensures |r| == |t| + 10 + |obj.name| + (if HasTypeName(obj) then |obj.typeName.value| + 3 else 0)
    ensures HasTypeName(obj) ==> r[|r| - 1] == ')'
  {
    NameHead(obj, t) + TypeNameSuffix(obj)
  }

  function OptionalSetLine(obj: DescriptorBinding, writeSet: bool, t: string): string
  {
    if writeSet then SetLine(obj, t) else ""
  }

  /** Everything `PrintDescriptorBinding` writes, in order. */
  function BindingText(obj: DescriptorBinding, writeSet: bool, t: string): string
  {
    BindingLine(obj, t) + OptionalSetLine(obj, writeSet, t) + ArrayLine(obj, t) + CounterLine(obj, t) + NameLine(obj, t)
  }

  /** The binding line comes first and the name line last, whatever else is
      printed. */
  lemma BindingTextFrame(obj: DescriptorBinding, writeSet: bool, t: string)
    ensures var r := BindingText(obj, writeSet, t);
      && |r| >= |BindingLine(obj, t)| + |NameLine(obj, t)|
      && r[..|BindingLine(obj, t)|] == BindingLine(obj, t)
      && r[|r| - |NameLine(obj, t)|..] == NameLine(obj, t)
  {
    var bl, osl, al, cl, nl := BindingLine(obj, t), OptionalSetLine(obj, writeSet, t), ArrayLine(obj, t),
                                CounterLine(obj, t), NameLine(obj, t);
    Assoc(bl, osl, al);
    Assoc(bl, osl + al, cl);
    Assoc(bl, osl + al + cl, nl);
    TakeWritten(bl, osl + al + cl + nl);
    DropWritten(bl + osl + al + cl, nl);
  }

  /** Dropping what was written first leaves what was written after. */
  lemma DropWritten(a: string, b: string)
    ensures (a + b)[|a|..] == b
  {
  }

  /** Taking as much as was written first gives it back. */
  lemma TakeWritten(a: string, b: string)
    ensures (a + b)[..|a|] == a
  {
  }

  /** Passing `write_set` inserts exactly the set line right after the
      binding line and changes nothing else. */
  lemma SetLineOnlyWhenWriteSet(obj: DescriptorBinding, t: string)
    ensures BindingText(obj, true, t) ==
            BindingLine(obj, t) + SetLine(obj, t) + BindingText(obj, false, t)[|BindingLine(obj, t)|..]
  {
    var bl, sl := BindingLine(obj, t), SetLine(obj, t);
    var al, cl, nl := ArrayLine(obj, t), CounterLine(obj, t), NameLine(obj, t);
    var rest := al + cl + nl;
    AppendNothing(bl);
    Assoc(bl, al, cl);
    Assoc(bl, al + cl, nl);
    assert BindingText(obj, false, t) == bl + rest;
    DropWritten(bl, rest);
    Assoc(bl + sl, al, cl);
    Assoc(bl + sl, al + cl, nl);
  }

  /** A counter binding inserts exactly the counter line right before the
      name line and changes nothing else. */
  lemma CounterLineOnlyWithCounter(obj: DescriptorBinding, writeSet: bool, t: string)
    requires obj.uavCounter.Some?
    ensures var plain := BindingText(obj.(uavCounter := None), writeSet, t);
      var n := |plain| - |NameLine(obj, t)|;
      0 <= n && BindingText(obj, writeSet, t) == plain[..n] + CounterLine(obj, t) + NameLine(obj, t)
  {
    var head := BindingLine(obj, t) + OptionalSetLine(obj, writeSet, t) + ArrayLine(obj, t);
    var plainObj := obj.(uavCounter := None);
    assert BindingLine(plainObj, t) == BindingLine(obj, t) && NameLine(plainObj, t) == NameLine(obj, t);
    assert BindingText(plainObj, writeSet, t) == head + NameLine(obj, t);
  }

  /** The array line is there iff the binding has dimensions; it then holds
      one bracket per dimension. */
  lemma ArrayLineIffDims(obj: DescriptorBinding, t: string)
    ensures |ArrayLine(obj, t)| == 0 <==> |obj.dims| == 0
    ensures |obj.dims| > 0 ==> Count(ArrayLine(obj, t), '[') == Count(t, '[') + |obj.dims|
  {
    if |obj.dims| > 0 {
      var dims := DimsText(obj.dims, |obj.dims|);
      OneBracketPerDimension(obj.dims, |obj.dims|);
      CountAppend(t, "array   : ", '[');
      CountAppend(t + "array   : ", dims, '[');
      CountAppend(t + "array   : " + dims, "\n", '[');
      CountAbsent("array   : ", '[');
      CountAbsent("\n", '[');
    }
  }

  /** `PrintDescriptorBinding(os, obj, write_set, indent)`. */
  method PrintDescriptorBinding(os: OStream, obj: DescriptorBinding, writeSet: bool, indent: string)
    modifies os
    ensures os.text == old(os.text) + BindingText(obj, writeSet, indent)
  {
    var t := indent;
    ghost var o := os.text;
    os.Write(BindingLine(obj, t));
    ghost var written := BindingLine(obj, t);
    if writeSet {
      os.Write(SetLine(obj, t));
      Assoc(o, written, SetLine(obj, t));
    } else {
      AppendNothing(written);
    }
    written := written + OptionalSetLine(obj, writeSet, t);
    if |obj.dims| > 0 {
      os.Write(ArrayHead(t));
      Assoc(o, written, ArrayHead(t));
      ghost var start := written + ArrayHead(t);
      var dimIndex := 0;
      while dimIndex < |obj.dims|
        invariant 0 <= dimIndex <= |obj.dims|
        invariant os.text == o + (start + DimsText(obj.dims, dimIndex))
      {
        os.Write(DimText(obj.dims[dimIndex]));
        Assoc(o, start + DimsText(obj.dims, dimIndex), DimText(obj.dims[dimIndex]));
        Assoc(start, DimsText(obj.dims, dimIndex), DimText(obj.dims[dimIndex]));
        dimIndex := dimIndex + 1;
      }
      os.Write("\n");
      Assoc(o, start + DimsText(obj.dims, |obj.dims|), "\n");
      Assoc(written, ArrayHead(t), DimsText(obj.dims, |obj.dims|));
      Assoc(written, ArrayHead(t) + DimsText(obj.dims, |obj.dims|), "\n");
    } else {
      AppendNothing(written);
    }
    written := written + ArrayLine(obj, t);
    assert os.text == o + written;
    if obj.uavCounter.Some? {
      os.Write(CounterLine(obj, t));
      Assoc(o, written, CounterLine(obj, t));
    } else {
      AppendNothing(written);
    }
    written := written + CounterLine(obj, t);
    assert os.text == o + written;
    os.Write(NameHead(obj, t));
    Assoc(o, written, NameHead(obj, t));
    if obj.typeName.Some? && |obj.typeName.value| > 0 {
      os.Write(TypeNameSuffix(obj));
      Assoc(o, written + NameHead(obj, t), TypeNameSuffix(obj));
    } else {
      AppendNothing(NameHead(obj, t));
    }
    Assoc(written, NameHead(obj, t), TypeNameSuffix(obj));
  }

  /** SpvSourceLanguage, by its numeric code. */
  type SourceLanguage = nat

  const SOURCE_LANGUAGE_HLSL: SourceLanguage := 5

  /** SpvReflectShaderStageFlagBits. */
  datatype ShaderStage = VertexStage | TessControlStage | TessEvalStage | GeometryStage | FragmentStage
                       | ComputeStage | OtherStage(bits: nat)

  /** The fields of `SpvReflectShaderModule` the printer reads. */
  datatype ShaderModuleInfo = ShaderModuleInfo(
    entryPointName: string,
    sourceLanguage: SourceLanguage,
    sourceLanguageVersion: nat,
    shaderStage: ShaderStage)

  /** The stage abbreviation of the `switch`: two letters for the six known
      stages, nothing for any other. */
  function StageName(stage: ShaderStage): (r: string)
    ensures |r| == (if stage.OtherStage? then 0 else 2)
  {
    match stage
    case VertexStage => "VS"
    case TessControlStage => "HS"
    case TessEvalStage => "DS"
    case GeometryStage => "GS"
    case FragmentStage => "PS"
    case ComputeStage => "CS"
    case OtherStage(_) => ""
  }

  function EntryPointLine(obj: ShaderModuleInfo): string
  {
    "entry point     : " + obj.entryPointName + "\n"
  }

  /** `languageName` is `spvReflectSourceLanguage`, not part of this model. */
  function LanguageLine(obj: ShaderModuleInfo, languageName: SourceLanguage -> string): string
  {
    "source lang     : " + languageName(obj.sourceLanguage) + "\n"
  }

  function VersionLine(obj: ShaderModuleInfo): string
  {
    "source lang ver : " + Decimal(obj.sourceLanguageVersion) + "\n"
  }

  function StageHead(): string
  {
    "stage           : "
  }

  /** Everything `PrintModuleInfo` writes: three lines, then, for HLSL
      only, a stage line with no newline. */
  function ModuleInfoText(obj: ShaderModuleInfo, languageName: SourceLanguage -> string): string
  {
    EntryPointLine(obj) + LanguageLine(obj, languageName) + VersionLine(obj)
      + (if obj.sourceLanguage == SOURCE_LANGUAGE_HLSL then StageHead() + StageName(obj.shaderStage) else "")
  }

  /** Outside HLSL the stage is never printed: the text does not depend on
      it. In HLSL it is the end of the text. */
  lemma StageOnlyForHlsl(obj: ShaderModuleInfo, languageName: SourceLanguage -> string, stage: ShaderStage)
    ensures obj.sourceLanguage != SOURCE_LANGUAGE_HLSL ==>
      ModuleInfoText(obj, languageName) == ModuleInfoText(obj.(shaderStage := stage), languageName)
    ensures obj.sourceLanguage == SOURCE_LANGUAGE_HLSL ==>
      var r := ModuleInfoText(obj, languageName);
      var s := StageName(obj.shaderStage);
      |r| >= |s| && r[|r| - |s|..] == s
  {
    if obj.sourceLanguage == SOURCE_LANGUAGE_HLSL {
      var head := EntryPointLine(obj) + LanguageLine(obj, languageName) + VersionLine(obj) + StageHead();
      assert ModuleInfoText(obj, languageName) == head + StageName(obj.shaderStage);
    }
  }

  /** `PrintModuleInfo(os, obj, indent)`; the indent is unused. */
  method PrintModuleInfo(os: OStream, obj: ShaderModuleInfo, languageName: SourceLanguage -> string)
    modifies os
    ensures os.text == old(os.text) + ModuleInfoText(obj, languageName)
  {
    ghost var o := os.text;
    ghost var epl, ll, vl := EntryPointLine(obj), LanguageLine(obj, languageName), VersionLine(obj);
    os.Write(EntryPointLine(obj));
    os.Write(LanguageLine(obj, languageName));
    Assoc(o, epl, ll);
    os.Write(VersionLine(obj));
    Assoc(o, epl + ll, vl);
    ghost var header := epl + ll + vl;
    if obj.sourceLanguage == SOURCE_LANGUAGE_HLSL {
      os.Write(StageHead());
      Assoc(o, header, StageHead());
      os.Write(StageName(obj.shaderStage));
      Assoc(o, header + StageHead(), StageName(obj.shaderStage));
      Assoc(header, StageHead(), StageName(obj.shaderStage));
    } else {
      AppendNothing(header);
    }
  }

  /** `SpvReflectDescriptorSet`: its set number and its bindings. */
  datatype DescriptorSetInfo = DescriptorSetInfo(setNumber: nat, bindings: seq<DescriptorBinding>)

  function SetHeader(obj: DescriptorSetInfo, t: string): string
  {
    t + "set           : " + Decimal(obj.setNumber) + "\n" + t + "binding count : " + Decimal(|obj.bindings|) + "\n"
  }

  /** The "i:" line, indented two more spaces. */
  function IndexLine(i: nat, t: string): string
  {
    t + "  " + Decimal(i) + ":" + "\n"
  }

  /** The newline between two bindings' blocks. */
  function Separator(obj: DescriptorSetInfo, i: nat): string
  {
    if i < |obj.bindings| - 1 then "\n" else ""
  }

  /** Binding i's block: its index line, the binding printed without its set
      line and indented four more spaces, and the separator. */
  function Entry(obj: DescriptorSetInfo, i: nat, t: string): string
    requires i < |obj.bindings|
  {
    IndexLine(i, t) + BindingText(obj.bindings[i], false, t + "    ") + Separator(obj, i)
  }

  /** The blocks of the first `k` bindings. */
  function Entries(obj: DescriptorSetInfo, k: nat, t: string): string
    requires k <= |obj.bindings|
  {
    if k == 0 then "" else Entries(obj, k - 1, t) + Entry(obj, k - 1, t)
  }

  /** One more binding appends its block. */
  lemma EntriesStep(obj: DescriptorSetInfo, k: nat, t: string)
    requires k < |obj.bindings|
    ensures Entries(obj, k + 1, t) == Entries(obj, k, t) + Entry(obj, k, t)
  {
  }

  /** Everything `PrintDescriptorSet` writes. */
  function SetText(obj: DescriptorSetInfo, t: string): string
  {
    SetHeader(obj, t) + Entries(obj, |obj.bindings|, t)
  }

  /** Every block but the last ends in the separating newline, and the last
      binding's text ends the output: nothing follows it. */
  lemma NoSeparatorAfterLast(obj: DescriptorSetInfo, t: string)
    ensures forall i :: 0 <= i < |obj.bindings| - 1 ==>
      Entry(obj, i, t) == IndexLine(i, t) + BindingText(obj.bindings[i], false, t + "    ") + "\n"
    ensures |obj.bindings| > 0 ==>
      var n := |obj.bindings|;
      SetText(obj, t) == SetHeader(obj, t) + Entries(obj, n - 1, t) + IndexLine(n - 1, t)
                         + BindingText(obj.bindings[n - 1], false, t + "    ")
  {
    if |obj.bindings| > 0 {
      var n := |obj.bindings|;
      var sh, e := SetHeader(obj, t), Entries(obj, n - 1, t);
      var il, bt := IndexLine(n - 1, t), BindingText(obj.bindings[n - 1], false, t + "    ");
      AppendNothing(il + bt);
      assert Entry(obj, n - 1, t) == il + bt;
      Assoc(sh, e, il + bt);
      Assoc(sh + e, il, bt);
    }
  }

  /** One iteration of `PrintDescriptorSet`'s loop: binding i's block. */
  method PrintEntry(os: OStream, obj: DescriptorSetInfo, i: nat, t: string)
    requires i < |obj.bindings|
    modifies os
    ensures os.text == old(os.text) + Entry(obj, i, t)
  {
    ghost var before := os.text;
    ghost var il, bt := IndexLine(i, t), BindingText(obj.bindings[i], false, t + "    ");
    os.Write(IndexLine(i, t));
    PrintDescriptorBinding(os, obj.bindings[i], false, t + "    ");
    Assoc(before, il, bt);
    if i < |obj.bindings| - 1 {
      os.Write("\n");
    } else {
      AppendNothing(il + bt);
    }
    Assoc(before, il + bt, Separator(obj, i));
  }

  /** `PrintDescriptorSet(os, obj, indent)`. */
  method PrintDescriptorSet(os: OStream, obj: DescriptorSetInfo, indent: string)
    modifies os
    ensures os.text == old(os.text) + SetText(obj, indent)
  {
    var t := indent;
    ghost var o, header := os.text, SetHeader(obj, t);
    os.Write(SetHeader(obj, t));
    PrintEntries(os, obj, t);
    Assoc(o, header, Entries(obj, |obj.bindings|, t));
  }

  /** The loop of `PrintDescriptorSet`: the blocks of all bindings in order. */
  method PrintEntries(os: OStream, obj: DescriptorSetInfo, t: string)
    modifies os
    ensures os.text == old(os.text) + Entries(obj, |obj.bindings|, t)
  {
    ghost var start := os.text;
    assert os.text == start + Entries(obj, 0, t) by {
      AppendNothing(start);
    }
    var i := 0;
    while i < |obj.bindings|
      invariant 0 <= i <= |obj.bindings|
      invariant os.text == start + Entries(obj, i, t)
    {
      ghost var done, next := Entries(obj, i, t), Entry(obj, i, t);
      PrintEntry(os, obj, i, t);
      EntriesStep(obj, i, t);
      Assoc(start, done, next);
      i := i + 1;
    }
  }
}
