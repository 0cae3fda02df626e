/**
 * GenerateOptionHandler: generates the source text of an abstract Weka class
 * that carries the option handling (flag constants, fields, listOptions,
 * setOptions, getOptions and per-option accessors) for a class definition,
 * and the path the text is written to.
 *
 * The text is modelled as the sequence of chunks the generator appends to its
 * StringBuilder; the text itself is their concatenation (Concat).
 */
module GenerateOptionHandler {
  import opened Wrappers
  import opened JavaText

  // ---------------------------------------------------------------------------
  // The input records
  // ---------------------------------------------------------------------------

  /** GenerateOptionHandler.Option: one option of the generated class. */
  datatype OptionDef = OptionDef(property: string, typeName: string, flag: string, defaultValue: string, help: string)

  /** GenerateOptionHandler.Definition: the class to generate. */
  datatype Definition = Definition(
    name: string, pkg: string, prefix: string, suffix: string, superclass: string,
    implement: seq<string>, author: string, organization: string, options: seq<OptionDef>)

  /**
   * new Option() with the fields the configuration always supplies; the
   * default value and the help text start out empty.
   */
  function NewOption(property: string, typeName: string, flag: string): (o: OptionDef)
    ensures o.property == property && o.typeName == typeName && o.flag == flag
    ensures o.defaultValue == "" && o.help == ""
  {
    OptionDef(property, typeName, flag, "", "")
  }

  /**
   * new Definition() with the fields the configuration always supplies; package,
   * prefix, suffix and superclass start out empty, and so do both lists.
   */
  function NewDefinition(name: string, author: string, organization: string): (d: Definition)
    ensures d.name == name && d.author == author && d.organization == organization
    ensures d.pkg == "" && d.prefix == "" && d.suffix == "" && d.superclass == ""
    ensures d.implement == [] && d.options == []
  {
    Definition(name, "", "", "", "", [], author, organization, [])
  }

  // ---------------------------------------------------------------------------
  // trimClass and upFirst
  // ---------------------------------------------------------------------------

  /** String.lastIndexOf(char): the last index holding c, or -1. */
  function LastIndexOf(s: string, c: char): (i: int)
    ensures -1 <= i < |s|
    ensures i < 0 <==> c !in s
    ensures i >= 0 ==> s[i] == c && c !in s[i + 1..]
  {
    if s == [] then -1
    else if s[|s| - 1] == c then |s| - 1
    else
      var j := LastIndexOf(s[..|s| - 1], c);
      assert j >= 0 ==> s[j + 1..] == s[..|s| - 1][j + 1..] + [s[|s| - 1]];
      assert j < 0 ==> s == s[..|s| - 1] + [s[|s| - 1]];
      j
  }

  /**
   * trimClass: the simple name of a class, the part after the last '.'. The
   * result is the longest suffix of clsname without a '.'.
   */
  function TrimClass(clsname: string): (r: string)
    ensures '.' !in r
    ensures |r| <= |clsname| && clsname[|clsname| - |r|..] == r
    ensures |r| < |clsname| ==> clsname[|clsname| - |r| - 1] == '.'
    ensures '.' !in clsname ==> r == clsname
  {
    if '.' in clsname then clsname[LastIndexOf(clsname, '.') + 1..] else clsname
  }

  /** The first character upper-cased, the rest kept (total: "" stays ""). */
  function Capitalize(s: string): (r: string)
    ensures |r| == |s|
  {
    if s == "" then "" else [UpperChar(s[0])] + s[1..]
  }

  /**
   * upFirst: substring(0, 1).toUpperCase() + substring(1). On the empty string
   * substring(0, 1) raises StringIndexOutOfBoundsException (None).
   */
  function UpFirst(property: string): (r: Option<string>)
    ensures r.Some? <==> property != ""
    ensures r.Some? ==> |r.value| == |property| && r.value[0] == UpperChar(property[0]) &&
                        r.value[1..] == property[1..]
  {
    if property == "" then None else Some(Capitalize(property))
  }

  // ---------------------------------------------------------------------------
  // The generated text, section by section
  // ---------------------------------------------------------------------------

  /** The chunks f gives for each element of xs, in order. */
  function Flatten<T>(xs: seq<T>, f: T -> seq<string>): seq<string> {
    if xs == [] then [] else Flatten(xs[..|xs| - 1], f) + f(xs[|xs| - 1])
  }

  const GPL: string :=
    "/*\n" +
    " *   This program is free software: you can redistribute it and/or modify\n" +
    " *   it under the terms of the GNU General Public License as published by\n" +
    " *   the Free Software Foundation, either version 3 of the License, or\n" +
    " *   (at your option) any later version.\n" +
    " *\n" +
    " *   This program is distributed in the hope that it will be useful,\n" +
    " *   but WITHOUT ANY WARRANTY; without even the implied warranty of\n" +
    " *   MERCHANTABILITY or FITNESS FOR A PARTICULAR PURPOSE.  See the\n" +
    " *   GNU General Public License for more details.\n" +
    " *\n" +
    " *   You should have received a copy of the GNU General Public License\n" +
    " *   along with this program.  If not, see <http://www.gnu.org/licenses/>.\n" +
    " */\n"

  const OptionHandlerInterface: string := "weka.core.OptionHandler"

  /** The generated class chains to super exactly when it does not implement OptionHandler itself. */
  predicate FromSuper(d: Definition) {
    OptionHandlerInterface !in d.implement
  }

  /** The name of the generated class. */
  function ClassName(d: Definition): string {
    d.prefix + d.name + d.suffix
  }

  function ImportLine(cls: string): string {
    "import " + cls + ";\n"
  }

  /** GPL preamble, copyright comment and package declaration. */
  function Preamble(d: Definition, year: int): seq<string> {
    [GPL, "\n", "/*\n", " * " + d.name + ".java\n",
     " * Copyright (C) " + IntToString(year) + " " + d.organization + "\n", " */\n", "\n"] +
    (if d.pkg != "" then ["package " + d.pkg + ";\n", "\n"] else [])
  }

  /** Only option types with a package get an import. */
  function TypeImport(o: OptionDef): seq<string> {
    if '.' in o.typeName then [ImportLine(o.typeName)] else []
  }

  function Imports(d: Definition): seq<string> {
    ["import weka.core.Utils;\n", "import weka.core.WekaOptionUtils;\n"] +
    (if d.superclass != "" then [ImportLine(d.superclass)] else []) +
    Lines(d.implement, ImportLine) +
    ["import java.util.ArrayList;\n", "import java.util.Enumeration;\n", "import java.util.List;\n", "import java.util.Vector;\n"] +
    Flatten(d.options, TypeImport) +
    ["\n"]
  }

  /** The simple names of the interfaces, separated by ", ". */
  function InterfaceList(implement: seq<string>): seq<string> {
    if implement == [] then []
    else InterfaceList(implement[..|implement| - 1]) + (if |implement| > 1 then [", "] else []) +
         [TrimClass(implement[|implement| - 1])]
  }

  /** The class comment, naming the definition and its author. */
  function ClassComment(d: Definition): seq<string> {
    ["/**\n", " * Superclass for " + d.name + " containing the option handling.\n", " *\n",
     " * @author " + d.author + "\n", " */\n"]
  }

  function ExtendsClause(d: Definition): seq<string> {
    if d.superclass != "" then ["\n  extends " + TrimClass(d.superclass)] else []
  }

  function ImplementsClause(d: Definition): seq<string> {
    if d.implement != [] then ["\n  implements "] + InterfaceList(d.implement) else []
  }

  function ClassDeclaration(d: Definition): seq<string> {
    ClassComment(d) + ["public abstract class " + ClassName(d)] + (ExtendsClause(d) + ImplementsClause(d)) + [" {\n"]
  }

  /** The flag constant of an option: its property upper-cased, holding the flag verbatim. */
  function FlagConstant(o: OptionDef): string {
    "  public final static String " + ToUpperCase(o.property) + " = \"" + o.flag + "\";\n"
  }

  function FlagChunks(o: OptionDef): seq<string> {
    ["\n", "  /** the flag for " + o.property + ". */\n", FlagConstant(o)]
  }

  /**
   * The field's doc comment. The conditional binds tighter than the
   * concatenation, so without help the comment is the property name alone,
   * with no closing delimiter and no line break.
   */
  function FieldComment(o: OptionDef): string {
    "  /** " + (if o.help == "" then o.property else o.help + " */\n")
  }

  function FieldChunks(o: OptionDef): seq<string> {
    ["\n", FieldComment(o),
     "  protected " + TrimClass(o.typeName) + " m_" + Capitalize(o.property) + " = getDefault" + Capitalize(o.property) + "();\n"]
  }

  const GlobalInfo: seq<string> :=
    ["\n", "  /**\n", "   * Returns a desription of the class.\n", "   *\n", "   * @return the description\n", "   */\n",
     "  public abstract String globalInfo();\n"]

  const SuperListOptions: string := "    WekaOptionUtils.add(result, super.listOptions());\n"
  const SuperSetOptions: string := "    super.setOptions(options);\n"
  const SuperGetOptions: string := "    WekaOptionUtils.add(result, super.getOptions());\n"

  /** The super call of a protocol method, present only when the class chains to super. */
  function SuperCall(d: Definition, line: string): seq<string> {
    if FromSuper(d) then [line] else []
  }

  const ListOptionsHead: seq<string> :=
    ["\n", "  /**\n", "   * Returns an enumeration describing the available options.\n", "   *\n",
     "   * @return an enumeration of all the available options.\n", "   */\n", "  @Override\n",
     "  public Enumeration listOptions() {\n", "    Vector result = new Vector();\n"]

  const ListOptionsTail: seq<string> := ["    return WekaOptionUtils.toEnumeration(result);\n", "  }\n"]

  function AddOptionLine(o: OptionDef): string {
    "    WekaOptionUtils.addOption(result, " + o.property + "TipText(), \"\" + getDefault" + Capitalize(o.property) + "(), " +
    ToUpperCase(o.property) + ");\n"
  }

  function ListOptions(d: Definition): seq<string> {
    ListOptionsHead + Lines(d.options, AddOptionLine) + SuperCall(d, SuperListOptions) + ListOptionsTail
  }

  const SetOptionsHead: seq<string> :=
    ["\n", "  /**\n", "   * Parses a given list of options.\n", "   *\n",
     "   * @param options the list of options as an array of strings\n",
     "   * @throws Exception if an option is not supported\n", "   */\n", "  @Override\n",
     "  public void setOptions(String[] options) throws Exception {\n"]

  const MethodEnd: seq<string> := ["  }\n"]

  /** The setter call of setOptions; a type with a package gets a cast to its simple name. */
  function SetOptionLine(o: OptionDef): string {
    if '.' in o.typeName then
      "    set" + Capitalize(o.property) + "((" + TrimClass(o.typeName) + ") WekaOptionUtils.parse(options, " +
      ToUpperCase(o.property) + ", getDefault" + Capitalize(o.property) + "()));\n"
    else
      "    set" + Capitalize(o.property) + "(WekaOptionUtils.parse(options, " + ToUpperCase(o.property) +
      ", getDefault" + Capitalize(o.property) + "()));\n"
  }

  function SetOptions(d: Definition): seq<string> {
    SetOptionsHead + Lines(d.options, SetOptionLine) + SuperCall(d, SuperSetOptions) + MethodEnd
  }

  const GetOptionsHead: seq<string> :=
    ["\n", "  /**\n", "   * Gets the current settings.\n", "   *\n",
     "   * @return an array of strings suitable for passing to setOptions\n", "   */\n", "  @Override\n",
     "  public String[] getOptions() {\n", "    List<String> result = new ArrayList<String>();\n"]

  const GetOptionsTail: seq<string> := ["    return WekaOptionUtils.toArray(result);\n", "  }\n"]

  function GetOptionLine(o: OptionDef): string {
    "    WekaOptionUtils.add(result, " + ToUpperCase(o.property) + ", get" + Capitalize(o.property) + "());\n"
  }

  function GetOptions(d: Definition): seq<string> {
    GetOptionsHead + Lines(d.options, GetOptionLine) + SuperCall(d, SuperGetOptions) + GetOptionsTail
  }

  /** The default, getter, setter and tip-text methods of one option. */
  function AccessorChunks(o: OptionDef): seq<string> {
    var t, up := TrimClass(o.typeName), Capitalize(o.property);
    ["\n", "  /**\n", "   * The default value for " + o.property + ".\n", "   *\n", "   * @return the default value\n", "   */\n",
     "  protected " + t + " getDefault" + up + "() {\n", "    return " + o.defaultValue + ";\n", "  }\n"] +
    ["\n", "  /**\n", "   * Returns the current value for " + o.property + ".\n", "   *\n", "   * @return the current value\n", "   */\n",
     "  public " + t + " get" + up + "() {\n", "    return m_" + up + ";\n", "  }\n"] +
    ["\n", "  /**\n", "   * Sets the new value for " + o.property + ".\n", "   *\n", "   * @param value the new value\n", "   */\n",
     "  public void set" + up + "(" + t + " value) {\n", "    m_" + up + " = value;\n", "  }\n"] +
    ["\n", "  /**\n", "   * Returns the help string for " + o.property + ".\n", "   *\n", "   * @return the help string\n", "   */\n",
     "  public String " + o.property + "TipText() {\n", "    return \"" + Capitalize(o.help) + "\";\n", "  }\n"]
  }

  /** Generation gets past every upFirst call: no option has an empty property or an empty help text. */
  predicate Generatable(d: Definition) {
    PropertiesNamed(d.options) && HelpGiven(d.options)
  }

  predicate PropertiesNamed(os: seq<OptionDef>) {
    forall i :: 0 <= i < |os| ==> os[i].property != ""
  }

  predicate HelpGiven(os: seq<OptionDef>) {
    forall i :: 0 <= i < |os| ==> os[i].help != ""
  }

  /** Everything generate appends, in order. */
  function Chunks(d: Definition, year: int): seq<string> {
    Preamble(d, year) + Imports(d) + ClassDeclaration(d) +
    Flatten(d.options, FlagChunks) + Flatten(d.options, FieldChunks) + GlobalInfo +
    ListOptions(d) + SetOptions(d) + GetOptions(d) +
    Flatten(d.options, AccessorChunks) + ["}\n"]
  }

  /**
   * The text generate writes, or None when one of its upFirst calls raises
   * (an option with an empty property or an empty help text).
   */
  function GenerateSpec(d: Definition, year: int): Option<string> {
    if Generatable(d) then Some(Concat(Chunks(d, year))) else None
  }

  /** String.replace(".", sep): every '.' replaced by sep. */
  function ReplaceDots(s: string, sep: string): (r: string)
    ensures '.' !in sep ==> '.' !in r
    ensures '.' !in s ==> r == s
  {
    if s == "" then "" else (if s[0] == '.' then sep else [s[0]]) + ReplaceDots(s[1..], sep)
  }

  /**
   * The output file: the absolute output directory, then the package as
   * nested directories when the package structure is added, then the class
   * name with ".java".
   */
  function OutputPath(outputDir: string, addPackageStructure: bool, sep: string, d: Definition): (r: string)
    ensures |r| >= |outputDir| && r[..|outputDir|] == outputDir
    ensures var file := sep + ClassName(d) + ".java"; |r| >= |outputDir| + |file| && r[|r| - |file|..] == file
    ensures var file := sep + ClassName(d) + ".java";
            r[|outputDir|..|r| - |file|] == if addPackageStructure then sep + ReplaceDots(d.pkg, sep) else ""
  {
    var dirs := if addPackageStructure then sep + ReplaceDots(d.pkg, sep) else "";
    var file := sep + ClassName(d) + ".java";
    var path := outputDir + dirs + file;
    assert path[..|outputDir|] == outputDir;
    assert path[|path| - |file|..] == file;
    assert path[|outputDir|..|path| - |file|] == dirs;
    path
  }

  // ---------------------------------------------------------------------------
  // Properties of the generated text
  // ---------------------------------------------------------------------------

  lemma FlattenSnoc<T>(xs: seq<T>, f: T -> seq<string>, i: nat)
    requires i < |xs|
    ensures Flatten(xs[..i + 1], f) == Flatten(xs[..i], f) + f(xs[i])
  {
    assert xs[..i + 1][..i] == xs[..i];
  }

  /** A chunk of a flattened section comes from one of the elements, and every element's chunks are there. */
  lemma {:induction false} FlattenMember<T>(xs: seq<T>, f: T -> seq<string>, x: string)
    ensures x in Flatten(xs, f) <==> exists j :: 0 <= j < |xs| && x in f(xs[j])
    decreases |xs|
  {
    if xs != [] {
      var init := xs[..|xs| - 1];
      FlattenMember(init, f, x);
      assert forall j :: 0 <= j < |init| ==> init[j] == xs[j];
      if x in Flatten(xs, f) && x !in f(xs[|xs| - 1]) {
        var j :| 0 <= j < |init| && x in f(init[j]);
        assert x in f(xs[j]);
      }
    }
  }

  lemma {:induction false} FlattenAppend<T>(xs: seq<T>, ys: seq<T>, f: T -> seq<string>)
    ensures Flatten(xs + ys, f) == Flatten(xs, f) + Flatten(ys, f)
    decreases |ys|
  {
    if ys == [] {
      assert xs + ys == xs;
    } else {
      var n := |ys| - 1;
      assert (xs + ys)[..|xs + ys| - 1] == xs + ys[..n];
      FlattenAppend(xs, ys[..n], f);
      Regroup(Flatten(xs, f), Flatten(ys[..n], f), f(ys[n]));
    }
  }

  lemma Regroup6<T>(a: seq<T>, b: seq<T>, c: seq<T>, d: seq<T>, e: seq<T>, f: seq<T>, g: seq<T>)
    ensures a + b + c + d + e + f + g == a + (b + c + d + e + f + g)
  {
  }

  lemma Regroup4<T>(a: seq<T>, b: seq<T>, c: seq<T>, d: seq<T>, e: seq<T>)
    ensures a + b + c + d + e == a + (b + c + d + e)
  {
  }

  /**
   * Each element's chunks sit between those of the elements before it and
   * those of the elements after it.
   */
  lemma FlattenAt<T>(xs: seq<T>, f: T -> seq<string>, i: nat)
    requires i < |xs|
    ensures Flatten(xs, f) == Flatten(xs[..i], f) + f(xs[i]) + Flatten(xs[i + 1..], f)
  {
    assert xs == xs[..i + 1] + xs[i + 1..];
    FlattenAppend(xs[..i + 1], xs[i + 1..], f);
    FlattenSnoc(xs, f, i);
  }

  /**
   * The shape shared by listOptions, setOptions and getOptions: a head, one
   * line per option in order, the super call when chaining, and a tail.
   */
  lemma ProtocolShape<T>(head: seq<string>, xs: seq<T>, f: T -> string, superLine: string, on: bool, tail: seq<string>)
    requires forall j :: 0 <= j < |xs| ==> f(xs[j]) != superLine
    requires superLine !in head && superLine !in tail
    ensures var s := head + Lines(xs, f) + (if on then [superLine] else []) + tail;
            |s| == |head| + |xs| + (if on then 1 else 0) + |tail| &&
            (forall i :: 0 <= i < |xs| ==> s[|head| + i] == f(xs[i])) &&
            (superLine in s <==> on) &&
            (on ==> multiset(s)[superLine] == 1 && s[|head| + |xs|] == superLine)
  {
    var body := Lines(xs, f);
    assert superLine !in body;
    assert multiset(head)[superLine] == 0 && multiset(body)[superLine] == 0 && multiset(tail)[superLine] == 0;
  }

  lemma AddOptionLineIsNotSuper(o: OptionDef)
    ensures AddOptionLine(o) != SuperListOptions
  {
    assert AddOptionLine(o)[23] == 'O';
  }

  lemma SetOptionLineIsNotSuper(o: OptionDef)
    ensures SetOptionLine(o) != SuperSetOptions
  {
    assert SetOptionLine(o)[5] == 'e';
  }

  lemma GetOptionLineIsNotSuper(o: OptionDef)
    ensures GetOptionLine(o) != SuperGetOptions
  {
    var line := GetOptionLine(o);
    if o.property == "" {
      assert line[32] == ',';
    } else {
      assert line[32] == UpperChar(o.property[0]);
    }
  }

  /**
   * listOptions has one addOption line per option, in declaration order; it
   * calls super.listOptions() exactly when the class chains to super, then
   * exactly once and after all option lines.
   */
  lemma ListOptionsChaining(d: Definition)
    ensures var s := ListOptions(d);
            (forall i :: 0 <= i < |d.options| ==> s[|ListOptionsHead| + i] == AddOptionLine(d.options[i])) &&
            (SuperListOptions in s <==> FromSuper(d)) &&
            (FromSuper(d) ==> multiset(s)[SuperListOptions] == 1 && s[|ListOptionsHead| + |d.options|] == SuperListOptions)
  {
    forall j | 0 <= j < |d.options|
      ensures AddOptionLine(d.options[j]) != SuperListOptions
    {
      AddOptionLineIsNotSuper(d.options[j]);
    }
    ProtocolShape(ListOptionsHead, d.options, AddOptionLine, SuperListOptions, FromSuper(d), ListOptionsTail);
  }

  /** setOptions: one setter line per option, in order; super.setOptions exactly when chaining, once, last. */
  lemma SetOptionsChaining(d: Definition)
    ensures var s := SetOptions(d);
            (forall i :: 0 <= i < |d.options| ==> s[|SetOptionsHead| + i] == SetOptionLine(d.options[i])) &&
            (SuperSetOptions in s <==> FromSuper(d)) &&
            (FromSuper(d) ==> multiset(s)[SuperSetOptions] == 1 && s[|SetOptionsHead| + |d.options|] == SuperSetOptions)
  {
    forall j | 0 <= j < |d.options|
      ensures SetOptionLine(d.options[j]) != SuperSetOptions
    {
      SetOptionLineIsNotSuper(d.options[j]);
    }
    ProtocolShape(SetOptionsHead, d.options, SetOptionLine, SuperSetOptions, FromSuper(d), MethodEnd);
  }

  /** getOptions: one add line per option, in order; super.getOptions exactly when chaining, once, last. */
  lemma GetOptionsChaining(d: Definition)
    ensures var s := GetOptions(d);
            (forall i :: 0 <= i < |d.options| ==> s[|GetOptionsHead| + i] == GetOptionLine(d.options[i])) &&
            (SuperGetOptions in s <==> FromSuper(d)) &&
            (FromSuper(d) ==> multiset(s)[SuperGetOptions] == 1 && s[|GetOptionsHead| + |d.options|] == SuperGetOptions)
  {
    forall j | 0 <= j < |d.options|
      ensures GetOptionLine(d.options[j]) != SuperGetOptions
    {
      GetOptionLineIsNotSuper(d.options[j]);
    }
    ProtocolShape(GetOptionsHead, d.options, GetOptionLine, SuperGetOptions, FromSuper(d), GetOptionsTail);
  }

  /**
   * Flag constants, fields and accessors: the block of option i sits between
   * the blocks of the options before it and those after it, in each section.
   */
  lemma PerOptionBlocks(d: Definition, i: nat)
    requires i < |d.options|
    ensures var os := d.options;
            Flatten(os, FlagChunks) == Flatten(os[..i], FlagChunks) + FlagChunks(os[i]) + Flatten(os[i + 1..], FlagChunks) &&
            Flatten(os, FieldChunks) == Flatten(os[..i], FieldChunks) + FieldChunks(os[i]) + Flatten(os[i + 1..], FieldChunks) &&
            Flatten(os, AccessorChunks) == Flatten(os[..i], AccessorChunks) + AccessorChunks(os[i]) + Flatten(os[i + 1..], AccessorChunks)
  {
    FlattenAt(d.options, FlagChunks, i);
    FlattenAt(d.options, FieldChunks, i);
    FlattenAt(d.options, AccessorChunks, i);
  }

  lemma ImportLineInjective(a: string, b: string)
    requires ImportLine(a) == ImportLine(b)
    ensures a == b
  {
    assert a == ImportLine(a)[7..|ImportLine(a)| - 2];
    assert b == ImportLine(b)[7..|ImportLine(b)| - 2];
  }

  /** An option type is imported exactly when some option has that type and the type has a package. */
  lemma TypeImportsExactlyDotted(options: seq<OptionDef>, t: string)
    ensures ImportLine(t) in Flatten(options, TypeImport) <==>
            '.' in t && exists j :: 0 <= j < |options| && options[j].typeName == t
  {
    FlattenMember(options, TypeImport, ImportLine(t));
    if ImportLine(t) in Flatten(options, TypeImport) {
      var j :| 0 <= j < |options| && ImportLine(t) in TypeImport(options[j]);
      ImportLineInjective(t, options[j].typeName);
    }
    if '.' in t && exists j :: 0 <= j < |options| && options[j].typeName == t {
      var j :| 0 <= j < |options| && options[j].typeName == t;
      assert ImportLine(t) in TypeImport(options[j]);
    }
  }

  /** The setter call in setOptions casts the parsed value exactly for a type with a package. */
  lemma SetOptionCastIffDotted(o: OptionDef)
    ensures SetOptionLine(o)[7 + |o.property|] == '('
    ensures SetOptionLine(o)[8 + |o.property|] == '(' <==> '.' in o.typeName
  {
  }

  /**
   * The constant for an option is named by its property upper-cased and holds
   * the flag verbatim between the quotes.
   */
  lemma FlagConstantHoldsFlagVerbatim(o: OptionDef)
    ensures var line, k := FlagConstant(o), 29 + |o.property|;
            |line| == k + 4 + |o.flag| + 3 &&
            line[29..k] == ToUpperCase(o.property) &&
            line[k..k + 4] == " = \"" &&
            line[k + 4..k + 4 + |o.flag|] == o.flag &&
            line[k + 4 + |o.flag|..] == "\";\n"
  {
    var line, k := FlagConstant(o), 29 + |o.property|;
    var head := "  public final static String ";
    assert line == head + ToUpperCase(o.property) + " = \"" + o.flag + "\";\n";
  }

  /**
   * Without help the field comment is the property name alone: it is never
   * closed and not terminated by a line break.
   */
  lemma FieldCommentWithoutHelp(o: OptionDef)
    requires o.help == ""
    ensures FieldComment(o) == "  /** " + o.property
    ensures |FieldComment(o)| == 6 + |o.property|
  {
  }

  /**
   * An option as the configuration loader creates it when the entry has no
   * "help" key keeps the empty default help, and upFirst on it raises: such a
   * definition cannot be generated.
   */
  lemma {:induction false} OptionWithoutHelpCannotBeGenerated(d: Definition, year: int, i: nat, property: string, typeName: string, flag: string, defaultValue: string)
    requires i < |d.options| && d.options[i] == NewOption(property, typeName, flag).(defaultValue := defaultValue)
    ensures GenerateSpec(d, year) == None
  {
    assert d.options[i].help == "";
    assert !Generatable(d);
  }

  lemma UpFirstFailsSomewhere(os: seq<OptionDef>)
    ensures !(PropertiesNamed(os) && HelpGiven(os)) <==>
            exists i :: 0 <= i < |os| && (UpFirst(os[i].property) == None || UpFirst(os[i].help) == None)
  {
    if !(PropertiesNamed(os) && HelpGiven(os)) {
      var i :| 0 <= i < |os| && !(os[i].property != "" && os[i].help != "");
      assert UpFirst(os[i].property) == None || UpFirst(os[i].help) == None;
    }
  }

  /** Generation fails exactly when upFirst fails on some option's property or help. */
  lemma GenerateFailsIff(d: Definition, year: int)
    ensures GenerateSpec(d, year).None? <==>
            exists i :: 0 <= i < |d.options| && (UpFirst(d.options[i].property) == None || UpFirst(d.options[i].help) == None)
  {
    UpFirstFailsSomewhere(d.options);
  }

  /** The header comment names the file after the definition's name alone. */
  lemma PreambleNamesFile(d: Definition, year: int)
    ensures Preamble(d, year)[3] == " * " + d.name + ".java\n"
  {
  }

  /** The declared class is named prefix, name and suffix, in that order. */
  lemma DeclarationNamesClass(d: Definition)
    ensures ClassDeclaration(d)[5] == "public abstract class " + d.prefix + d.name + d.suffix
  {
    ElementAfter(ClassComment(d), "public abstract class " + ClassName(d), ExtendsClause(d) + ImplementsClause(d), [" {\n"]);
  }

  lemma ElementAfter<T>(a: seq<T>, x: T, b: seq<T>, c: seq<T>)
    ensures |a + [x] + b + c| > |a| && (a + [x] + b + c)[|a|] == x
  {
  }

  /** A definition as the loader starts it chains to super, has no package line and no extends/implements clause. */
  lemma NewDefinitionShape(name: string, author: string, organization: string, year: int)
    ensures var d := NewDefinition(name, author, organization);
            FromSuper(d) && |Preamble(d, year)| == 7 && ClassDeclaration(d)[6] == " {\n" && GenerateSpec(d, year).Some?
  {
  }

  // ---------------------------------------------------------------------------
  // generate, as the StringBuilder appends happen
  // ---------------------------------------------------------------------------

  lemma InterfaceListSnoc(xs: seq<string>, i: nat)
    requires i < |xs|
    ensures InterfaceList(xs[..i + 1]) == InterfaceList(xs[..i]) + (if i > 0 then [", "] else []) + [TrimClass(xs[i])]
  {
    assert xs[..i + 1][..i] == xs[..i];
  }

  lemma NamedSnoc(os: seq<OptionDef>, i: nat)
    requires i < |os| && PropertiesNamed(os[..i]) && os[i].property != ""
    ensures PropertiesNamed(os[..i + 1])
  {
  }

  lemma UnnamedAt(os: seq<OptionDef>, i: nat)
    requires i < |os| && os[i].property == ""
    ensures !PropertiesNamed(os)
  {
  }

  lemma HelpSnoc(os: seq<OptionDef>, i: nat)
    requires i < |os| && HelpGiven(os[..i]) && os[i].help != ""
    ensures HelpGiven(os[..i + 1])
  {
  }

  lemma HelplessAt(os: seq<OptionDef>, i: nat)
    requires i < |os| && os[i].help == ""
    ensures !HelpGiven(os)
  {
  }

  /** The GPL preamble, the copyright comment and the package declaration. */
  method AppendPreamble(d: Definition, year: int) returns (code: seq<string>)
    ensures code == Preamble(d, year)
  {
    code := [GPL, "\n"];
    code := code + ["/*\n", " * " + d.name + ".java\n", " * Copyright (C) " + IntToString(year) + " " + d.organization + "\n",
                    " */\n", "\n"];
    if d.pkg != "" {
      code := code + ["package " + d.pkg + ";\n", "\n"];
    }
  }

  /**
   * The imports. While importing the interfaces the generator notes whether
   * one of them is OptionHandler: then the class stops chaining to super.
   */
  method AppendImports(code: seq<string>, d: Definition) returns (c: seq<string>, fromSuper: bool)
    ensures c == code + Imports(d)
    ensures fromSuper == FromSuper(d)
  {
    fromSuper := true;
    c := code + ["import weka.core.Utils;\n", "import weka.core.WekaOptionUtils;\n"];
    ghost var before := c;
    if d.superclass != "" {
      c := c + [ImportLine(d.superclass)];
    }
    assert c == before + (if d.superclass != "" then [ImportLine(d.superclass)] else []);
    ghost var base := c;
    for i := 0 to |d.implement|
      invariant c == base + Lines(d.implement[..i], ImportLine)
      invariant fromSuper <==> OptionHandlerInterface !in d.implement[..i]
    {
      assert d.implement[..i + 1] == d.implement[..i] + [d.implement[i]];
      if d.implement[i] == OptionHandlerInterface {
        fromSuper := false;
      }
      LinesSnoc(d.implement, ImportLine, i);
      Regroup(base, Lines(d.implement[..i], ImportLine), [ImportLine(d.implement[i])]);
      c := c + [ImportLine(d.implement[i])];
    }
    assert d.implement[..|d.implement|] == d.implement;
    c := c + ["import java.util.ArrayList;\n", "import java.util.Enumeration;\n", "import java.util.List;\n", "import java.util.Vector;\n"];
    base := c;
    for i := 0 to |d.options|
      invariant c == base + Flatten(d.options[..i], TypeImport)
    {
      FlattenSnoc(d.options, TypeImport, i);
      Regroup(base, Flatten(d.options[..i], TypeImport), TypeImport(d.options[i]));
      ghost var prev := c;
      if '.' in d.options[i].typeName {
        c := c + [ImportLine(d.options[i].typeName)];
      }
      assert c == prev + TypeImport(d.options[i]);
    }
    assert d.options[..|d.options|] == d.options;
    c := c + ["\n"];
    Regroup6(code, ["import weka.core.Utils;\n", "import weka.core.WekaOptionUtils;\n"],
             if d.superclass != "" then [ImportLine(d.superclass)] else [],
             Lines(d.implement, ImportLine),
             ["import java.util.ArrayList;\n", "import java.util.Enumeration;\n", "import java.util.List;\n", "import java.util.Vector;\n"],
             Flatten(d.options, TypeImport), ["\n"]);
  }

  /** The simple names of the interfaces, separated by ", ". */
  method AppendInterfaces(code: seq<string>, implement: seq<string>) returns (c: seq<string>)
    ensures c == code + InterfaceList(implement)
  {
    c := code;
    for i := 0 to |implement|
      invariant c == code + InterfaceList(implement[..i])
    {
      InterfaceListSnoc(implement, i);
      Regroup(code, InterfaceList(implement[..i]), (if i > 0 then [", "] else []));
      Regroup(code, InterfaceList(implement[..i]) + (if i > 0 then [", "] else []), [TrimClass(implement[i])]);
      ghost var prev := c;
      if i > 0 {
        c := c + [", "];
      }
      assert c == prev + (if i > 0 then [", "] else []);
      c := c + [TrimClass(implement[i])];
    }
    assert implement[..|implement|] == implement;
  }

  /** The class comment and declaration, with its extends and implements clauses. */
  method AppendClassDeclaration(code: seq<string>, d: Definition) returns (c: seq<string>)
    ensures c == code + ClassDeclaration(d)
  {
    c := code + ClassComment(d);
    c := c + ["public abstract class " + ClassName(d)];
    c := AppendClauses(c, d);
    c := c + [" {\n"];
    Regroup4(code, ClassComment(d), ["public abstract class " + ClassName(d)], ExtendsClause(d) + ImplementsClause(d), [" {\n"]);
  }

  /** The extends clause for a superclass, then the implements clause for interfaces. */
  method AppendClauses(code: seq<string>, d: Definition) returns (c: seq<string>)
    ensures c == code + (ExtendsClause(d) + ImplementsClause(d))
  {
    c := code;
    if d.superclass != "" {
      c := c + ["\n  extends " + TrimClass(d.superclass)];
    }
    assert c == code + ExtendsClause(d);
    ghost var before := c;
    if d.implement != [] {
      c := c + ["\n  implements "];
      c := AppendInterfaces(c, d.implement);
      Regroup(before, ["\n  implements "], InterfaceList(d.implement));
    }
    assert c == before + ImplementsClause(d);
    Regroup(code, ExtendsClause(d), ImplementsClause(d));
  }

  /** One flag constant per option. */
  method AppendFlags(code: seq<string>, d: Definition) returns (c: seq<string>)
    ensures c == code + Flatten(d.options, FlagChunks)
  {
    c := code;
    for i := 0 to |d.options|
      invariant c == code + Flatten(d.options[..i], FlagChunks)
    {
      var o := d.options[i];
      FlattenSnoc(d.options, FlagChunks, i);
      Regroup(code, Flatten(d.options[..i], FlagChunks), FlagChunks(o));
      c := c + ["\n", "  /** the flag for " + o.property + ". */\n", FlagConstant(o)];
    }
    assert d.options[..|d.options|] == d.options;
  }

  /**
   * One field per option. upFirst on the property raises for the first option
   * with an empty property (ok is false), and the text is abandoned.
   */
  method AppendFields(code: seq<string>, d: Definition) returns (c: seq<string>, ok: bool)
    ensures ok <==> PropertiesNamed(d.options)
    ensures ok ==> c == code + Flatten(d.options, FieldChunks)
  {
    c := code;
    for i := 0 to |d.options|
      invariant PropertiesNamed(d.options[..i])
      invariant c == code + Flatten(d.options[..i], FieldChunks)
    {
      var o := d.options[i];
      var up := UpFirst(o.property);
      if up.None? {
        UnnamedAt(d.options, i);
        return c, false;
      }
      NamedSnoc(d.options, i);
      assert up.value == Capitalize(o.property);
      FlattenSnoc(d.options, FieldChunks, i);
      Regroup(code, Flatten(d.options[..i], FieldChunks), FieldChunks(o));
      c := c + ["\n", FieldComment(o), "  protected " + TrimClass(o.typeName) + " m_" + up.value + " = getDefault" + up.value + "();\n"];
    }
    assert d.options[..|d.options|] == d.options;
    ok := true;
  }

  /** listOptions: its head, one addOption line per option, the super call when chaining, its tail. */
  method AppendListOptions(code: seq<string>, d: Definition, fromSuper: bool) returns (c: seq<string>)
    requires fromSuper == FromSuper(d)
    ensures c == code + ListOptions(d)
  {
    c := code + ListOptionsHead;
    for i := 0 to |d.options|
      invariant c == code + ListOptionsHead + Lines(d.options[..i], AddOptionLine)
    {
      LinesSnoc(d.options, AddOptionLine, i);
      Regroup(code + ListOptionsHead, Lines(d.options[..i], AddOptionLine), [AddOptionLine(d.options[i])]);
      c := c + [AddOptionLine(d.options[i])];
    }
    assert d.options[..|d.options|] == d.options;
    ghost var lines := c;
    if fromSuper {
      c := c + [SuperListOptions];
    }
    assert c == lines + SuperCall(d, SuperListOptions);
    c := c + ListOptionsTail;
    Regroup4(code, ListOptionsHead, Lines(d.options, AddOptionLine), SuperCall(d, SuperListOptions), ListOptionsTail);
  }

  /** setOptions: its head, one setter line per option, the super call when chaining, its end. */
  method AppendSetOptions(code: seq<string>, d: Definition, fromSuper: bool) returns (c: seq<string>)
    requires fromSuper == FromSuper(d)
    ensures c == code + SetOptions(d)
  {
    c := code + SetOptionsHead;
    for i := 0 to |d.options|
      invariant c == code + SetOptionsHead + Lines(d.options[..i], SetOptionLine)
    {
      LinesSnoc(d.options, SetOptionLine, i);
      Regroup(code + SetOptionsHead, Lines(d.options[..i], SetOptionLine), [SetOptionLine(d.options[i])]);
      c := c + [SetOptionLine(d.options[i])];
    }
    assert d.options[..|d.options|] == d.options;
    ghost var lines := c;
    if fromSuper {
      c := c + [SuperSetOptions];
    }
    assert c == lines + SuperCall(d, SuperSetOptions);
    c := c + MethodEnd;
    Regroup4(code, SetOptionsHead, Lines(d.options, SetOptionLine), SuperCall(d, SuperSetOptions), MethodEnd);
  }

  /** getOptions: its head, one add line per option, the super call when chaining, its tail. */
  method AppendGetOptions(code: seq<string>, d: Definition, fromSuper: bool) returns (c: seq<string>)
    requires fromSuper == FromSuper(d)
    ensures c == code + GetOptions(d)
  {
    c := code + GetOptionsHead;
    for i := 0 to |d.options|
      invariant c == code + GetOptionsHead + Lines(d.options[..i], GetOptionLine)
    {
      LinesSnoc(d.options, GetOptionLine, i);
      Regroup(code + GetOptionsHead, Lines(d.options[..i], GetOptionLine), [GetOptionLine(d.options[i])]);
      c := c + [GetOptionLine(d.options[i])];
    }
    assert d.options[..|d.options|] == d.options;
    ghost var lines := c;
    if fromSuper {
      c := c + [SuperGetOptions];
    }
    assert c == lines + SuperCall(d, SuperGetOptions);
    c := c + GetOptionsTail;
    Regroup4(code, GetOptionsHead, Lines(d.options, GetOptionLine), SuperCall(d, SuperGetOptions), GetOptionsTail);
  }

  /**
   * The default, getter, setter and tip-text methods of each option. upFirst
   * on the help text raises for the first option without help (ok is false).
   */
  method AppendAccessors(code: seq<string>, d: Definition) returns (c: seq<string>, ok: bool)
    ensures ok <==> HelpGiven(d.options)
    ensures ok ==> c == code + Flatten(d.options, AccessorChunks)
  {
    c := code;
    for i := 0 to |d.options|
      invariant HelpGiven(d.options[..i])
      invariant c == code + Flatten(d.options[..i], AccessorChunks)
    {
      var o := d.options[i];
      var tip := UpFirst(o.help);
      if tip.None? {
        HelplessAt(d.options, i);
        return c, false;
      }
      HelpSnoc(d.options, i);
      FlattenSnoc(d.options, AccessorChunks, i);
      Regroup(code, Flatten(d.options[..i], AccessorChunks), AccessorChunks(o));
      c := c + AccessorChunks(o);
    }
    assert d.options[..|d.options|] == d.options;
    ok := true;
  }

  /** What a successful generate produces: the class text and the file it is written to. */
  datatype Generated = Generated(text: string, path: string)

  /**
   * The StringBuilder of generate, section by section. ok is false when an
   * upFirst call raises, which abandons the text.
   */
  method GenerateCode(d: Definition, year: int) returns (code: seq<string>, ok: bool)
    ensures ok <==> Generatable(d)
    ensures ok ==> code == Chunks(d, year)
  {
    code := AppendPreamble(d, year);
    var fromSuper;
    code, fromSuper := AppendImports(code, d);
    code := AppendClassDeclaration(code, d);
    code := AppendFlags(code, d);
    code, ok := AppendFields(code, d);
    if !ok {
      return;
    }
    code := code + GlobalInfo;
    code := AppendListOptions(code, d, fromSuper);
    code := AppendSetOptions(code, d, fromSuper);
    code := AppendGetOptions(code, d, fromSuper);
    code, ok := AppendAccessors(code, d);
    if !ok {
      return;
    }
    code := code + ["}\n"];
  }

  /** The output file name of generate, outputDir being the absolute output directory. */
  method OutputFile(outputDir: string, addPackageStructure: bool, sep: string, d: Definition) returns (outStr: string)
    ensures outStr == OutputPath(outputDir, addPackageStructure, sep, d)
  {
    outStr := outputDir;
    if addPackageStructure {
      outStr := outStr + (sep + ReplaceDots(d.pkg, sep));
    } else {
      assert outStr == outputDir + "";
    }
    outStr := outStr + (sep + ClassName(d) + ".java");
  }

  /**
   * generate up to the write: the text of the class and its output path, or
   * None when an upFirst call raises. sep is the file separator.
   */
  method Generate(d: Definition, year: int, outputDir: string, addPackageStructure: bool, sep: string)
    returns (r: Option<Generated>)
    ensures r.None? <==> GenerateSpec(d, year).None?
    ensures r.Some? ==> r.value == Generated(GenerateSpec(d, year).value, OutputPath(outputDir, addPackageStructure, sep, d))
  {
    var code, ok := GenerateCode(d, year);
    if !ok {
      return None;
    }
    var outStr := OutputFile(outputDir, addPackageStructure, sep, d);
    r := Some(Generated(Concat(code), outStr));
  }

  // ---------------------------------------------------------------------------
  // Definition.toString
  // ---------------------------------------------------------------------------

  /** Option.toString: one "key: value" line per field, the help line without a line break. */
  function OptionText(o: OptionDef): string {
    "property: " + o.property + "\n" + "type: " + o.typeName + "\n" + "flag: " + o.flag + "\n" +
    "default: " + o.defaultValue + "\n" + "help: " + o.help
  }

  /** The lines Definition.toString starts with, the interfaces printed as a list. */
  function DefinitionHead(d: Definition): seq<string> {
    ["name: " + d.name + "\n", "package: " + d.pkg + "\n", "prefix: " + d.prefix + "\n", "suffix: " + d.suffix + "\n",
     "superclass: " + d.superclass + "\n", "implement: " + ListToString(d.implement) + "\n", "author: " + d.author + "\n",
     "organization: " + d.organization + "\n", "options:\n"]
  }

  /** The entry of the option at index i, numbered from 1. */
  function Entry(i: int, o: OptionDef): string {
    IntToString(i + 1) + ". " + OptionText(o) + "\n"
  }

  /** One line per element, made from its index and the element. */
  function Numbered<T>(xs: seq<T>, f: (int, T) -> string): (r: seq<string>)
    ensures |r| == |xs|
    ensures forall i :: 0 <= i < |xs| ==> r[i] == f(i, xs[i])
  {
    seq(|xs|, i requires 0 <= i < |xs| => f(i, xs[i]))
  }

  /** The text of Definition.toString: the head, then "-none-" or one numbered entry per option. */
  function DefinitionText(d: Definition): string {
    Concat(DefinitionHead(d) + (if d.options == [] then ["-none-"] else Numbered(d.options, Entry)))
  }

  lemma NumberedSnoc<T>(xs: seq<T>, f: (int, T) -> string, i: nat)
    requires i < |xs|
    ensures Numbered(xs[..i + 1], f) == Numbered(xs[..i], f) + [f(i, xs[i])]
  {
    var l, m := Numbered(xs[..i + 1], f), Numbered(xs[..i], f) + [f(i, xs[i])];
    assert forall k :: 0 <= k < |l| ==> l[k] == m[k];
  }

  /** Definition.toString, appending line by line. */
  method DefinitionToString(d: Definition) returns (s: string)
    ensures s == DefinitionText(d)
  {
    var result := ["name: " + d.name + "\n", "package: " + d.pkg + "\n", "prefix: " + d.prefix + "\n", "suffix: " + d.suffix + "\n",
                   "superclass: " + d.superclass + "\n", "implement: " + ListToString(d.implement) + "\n", "author: " + d.author + "\n",
                   "organization: " + d.organization + "\n", "options:\n"];
    if |d.options| == 0 {
      result := result + ["-none-"];
    } else {
      ghost var head := result;
      for i := 0 to |d.options|
        invariant result == head + Numbered(d.options[..i], Entry)
      {
        NumberedSnoc(d.options, Entry, i);
        Regroup(head, Numbered(d.options[..i], Entry), [Entry(i, d.options[i])]);
        result := result + [IntToString(i + 1) + ". " + OptionText(d.options[i]) + "\n"];
      }
      assert d.options[..|d.options|] == d.options;
    }
    s := Concat(result);
  }

  lemma PrefixOf<T>(a: seq<T>, b: seq<T>)
    ensures |a + b| >= |a| && (a + b)[..|a|] == a
  {
  }

  lemma FirstOf<T>(a: seq<T>, b: seq<T>)
    requires a != []
    ensures a + b != [] && (a + b)[0] == a[0]
  {
  }

  lemma SuffixOf<T>(a: seq<T>, b: seq<T>)
    ensures |a + b| >= |b| && (a + b)[|a + b| - |b|..] == b
  {
  }

  /** The text of a definition starts by naming it. */
  lemma DefinitionTextNamesFirst(d: Definition)
    ensures var t := DefinitionText(d);
            |t| >= 7 + |d.name| && t[..7 + |d.name|] == "name: " + d.name + "\n"
  {
    var head := DefinitionHead(d);
    var tail := if d.options == [] then ["-none-"] else Numbered(d.options, Entry);
    FirstOf(head, tail);
    ConcatStartsWith(head + tail);
  }

  /**
   * The text ends with "-none-" when there are no options, and otherwise with
   * the entry of the last option, which ends in a line break.
   */
  lemma DefinitionTextEnding(d: Definition)
    ensures d.options == [] ==> var t := DefinitionText(d); |t| >= 6 && t[|t| - 6..] == "-none-"
    ensures d.options != [] ==>
              var t, last := DefinitionText(d), Entry(|d.options| - 1, d.options[|d.options| - 1]);
              |t| >= |last| && t[|t| - |last|..] == last && t[|t| - 1] == '\n'
  {
    var head := DefinitionHead(d);
    var tail := if d.options == [] then ["-none-"] else Numbered(d.options, Entry);
    var all := head + tail;
    var init := tail[..|tail| - 1];
    assert all[..|all| - 1] == head + init;
    assert Concat(all) == Concat(head + init) + tail[|tail| - 1];
    SuffixOf(Concat(head + init), tail[|tail| - 1]);
  }

  // ---------------------------------------------------------------------------
  // execute
  // ---------------------------------------------------------------------------

  /** What reading one configuration file gives: a definition, or the text of the exception that stopped the parse. */
  datatype Loaded = Parsed(definition: Definition) | Unparsable(exception: string)

  /**
   * The generator's surroundings: the configuration reader, the file writer
   * (None on success, otherwise the exception text), the absolute form of a
   * directory, the file separator and the current year.
   */
  datatype Environment = Environment(
    load: string -> Loaded, write: (string, string) -> Option<string>, absolute: string -> string,
    separator: string, year: int)

  /** One configuration handled: passed, failed with an error message, or an exception escaped. */
  datatype Step = Passed | Failed(message: string) | Raised

  /** What execute ends with: its returned error message (None on success), or an escaping exception. */
  datatype Outcome = Done(error: Option<string>) | Aborted

  /** loadJSON's message: it lists every configuration, not only the failing one. */
  function LoadError(configurations: seq<string>, exception: string): string {
    "Failed to parse configuration: " + ListToString(configurations) + "\n" + exception
  }

  function WriteError(path: string, exception: string): string {
    "Failed to output generated code to: " + path + "\n" + exception
  }

  /** The definition the generator holds after loading one configuration. */
  function DefinitionOf(l: Loaded): Option<Definition> {
    if l.Parsed? then Some(l.definition) else None
  }

  /** generate with the definition held, and the write of its text. */
  function GenerateStep(env: Environment, outputDir: string, addPackageStructure: bool, d: Definition): Step {
    match GenerateSpec(d, env.year)
    case None => Raised
    case Some(text) =>
      var path := OutputPath(env.absolute(outputDir), addPackageStructure, env.separator, d);
      match env.write(path, text)
      case Some(e) => Failed(WriteError(path, e))
      case None => Passed
  }

  /** One configuration: loadJSON and then, when it succeeded, generate. */
  function Handle(env: Environment, configurations: seq<string>, outputDir: string, addPackageStructure: bool, config: string): Step {
    match env.load(config)
    case Unparsable(e) => Failed(LoadError(configurations, e))
    case Parsed(d) => GenerateStep(env, outputDir, addPackageStructure, d)
  }

  function HandleFor(env: Environment, configurations: seq<string>, outputDir: string, addPackageStructure: bool): string -> Step {
    config => Handle(env, configurations, outputDir, addPackageStructure, config)
  }

  function HeldFor(env: Environment): string -> Option<Definition> {
    config => DefinitionOf(env.load(config))
  }

  function OutcomeOf(s: Step): Outcome {
    match s
    case Passed => Done(None)
    case Failed(m) => Done(Some(m))
    case Raised => Aborted
  }

  datatype Run = Run(outcome: Outcome, definition: Option<Definition>)

  /**
   * execute's loop over the configurations still pending, given how one
   * configuration is handled and which definition it leaves held: each one
   * resets the held definition, and the first that does not pass ends the run.
   */
  function ExecuteFrom(handle: string -> Step, held: string -> Option<Definition>, pending: seq<string>,
                       definition: Option<Definition>): Run
    decreases |pending|
  {
    if pending == [] then Run(Done(None), definition)
    else if handle(pending[0]).Passed? then ExecuteFrom(handle, held, pending[1..], held(pending[0]))
    else Run(OutcomeOf(handle(pending[0])), held(pending[0]))
  }

  /**
   * execute returns null exactly when every configuration passes, and then
   * holds the last one's definition (the initial one when there are none).
   * Otherwise it ends with the first configuration that does not pass: its
   * error message or its exception, holding its definition.
   */
  lemma {:induction false} ExecuteStopsAtFirstFailure(handle: string -> Step, held: string -> Option<Definition>,
                                                    pending: seq<string>, definition: Option<Definition>)
    ensures var run := ExecuteFrom(handle, held, pending, definition);
            run.outcome == Done(None) <==> forall i :: 0 <= i < |pending| ==> handle(pending[i]).Passed?
    ensures var run := ExecuteFrom(handle, held, pending, definition);
            run.outcome == Done(None) ==> run.definition == if pending == [] then definition else held(pending[|pending| - 1])
    ensures var run := ExecuteFrom(handle, held, pending, definition);
            run.outcome != Done(None) ==>
              exists i :: 0 <= i < |pending| && (forall j :: 0 <= j < i ==> handle(pending[j]).Passed?) &&
                          !handle(pending[i]).Passed? && run.outcome == OutcomeOf(handle(pending[i])) &&
                          run.definition == held(pending[i])
    decreases |pending|
  {
    if pending != [] && handle(pending[0]).Passed? {
      var rest := pending[1..];
      ExecuteStopsAtFirstFailure(handle, held, rest, held(pending[0]));
      assert forall i :: 1 <= i < |pending| ==> pending[i] == rest[i - 1];
      var run := ExecuteFrom(handle, held, pending, definition);
      if run.outcome != Done(None) {
        var k :| 0 <= k < |rest| && (forall j :: 0 <= j < k ==> handle(rest[j]).Passed?) &&
                 !handle(rest[k]).Passed? && run.outcome == OutcomeOf(handle(rest[k])) && run.definition == held(rest[k]);
        assert forall j :: 0 <= j < k + 1 ==> handle(pending[j]).Passed?;
      } else if rest == [] {
        assert pending[|pending| - 1] == pending[0];
      }
    } else if pending != [] {
      assert !handle(pending[0]).Passed?;
      assert OutcomeOf(handle(pending[0])) != Done(None);
    }
  }

  /** The generator: its settings and the definition it holds. */
  class Generator {
    var configurations: seq<string>
    var outputDir: string
    var addPackageStructure: bool
    var generateDirs: bool
    var verbose: bool
    var definition: Option<Definition>

    constructor ()
      ensures configurations == [] && outputDir == "." && !addPackageStructure && !generateDirs && !verbose
      ensures definition == None
    {
      definition := None;
      configurations := [];
      outputDir := ".";
      addPackageStructure := false;
      generateDirs := false;
      verbose := false;
    }

    /**
     * loadJSON: the error message (listing every configuration) when the file
     * cannot be parsed, and otherwise no message and the parsed definition held.
     */
    method LoadJSON(env: Environment, config: string) returns (result: Option<string>)
      modifies this`definition
      ensures result == if env.load(config).Parsed? then None else Some(LoadError(configurations, env.load(config).exception))
      ensures definition == if env.load(config).Parsed? then Some(env.load(config).definition) else old(definition)
    {
      result := None;
      var loaded := env.load(config);
      match loaded
      case Unparsable(e) =>
        result := Some(LoadError(configurations, e));
      case Parsed(d) =>
        definition := Some(d);
    }

    /**
     * generate with the held definition (none held dereferences null, an
     * escaping exception), then the write of the text to the output file.
     */
    method GenerateHeld(env: Environment) returns (step: Step)
      ensures step == if definition.None? then Raised else GenerateStep(env, outputDir, addPackageStructure, definition.value)
    {
      if definition.None? {
        return Raised;
      }
      var d := definition.value;
      var generated := Generate(d, env.year, env.absolute(outputDir), addPackageStructure, env.separator);
      if generated.None? {
        return Raised;
      }
      var failure := env.write(generated.value.path, generated.value.text);
      if failure.Some? {
        step := Failed(WriteError(generated.value.path, failure.value));
      } else {
        step := Passed;
      }
    }

    /**
     * execute: the configurations in order, each resetting the held definition;
     * the first error message ends the loop and is returned.
     */
    method Execute(env: Environment) returns (outcome: Outcome)
      modifies this`definition
      ensures Run(outcome, definition) ==
              ExecuteFrom(HandleFor(env, configurations, outputDir, addPackageStructure), HeldFor(env), configurations, old(definition))
    {
      ghost var handle, held := HandleFor(env, configurations, outputDir, addPackageStructure), HeldFor(env);
      outcome := Done(None);
      var i := 0;
      while i < |configurations|
        invariant 0 <= i <= |configurations|
        invariant ExecuteFrom(handle, held, configurations, old(definition)) == ExecuteFrom(handle, held, configurations[i..], definition)
        invariant outcome == Done(None)
      {
        var config := configurations[i];
        assert configurations[i..][0] == config && configurations[i..][1..] == configurations[i + 1..];
        definition := None;
        var result := LoadJSON(env, config);
        if result.None? {
          var step := GenerateHeld(env);
          if step.Raised? {
            return Aborted;
          }
          result := if step.Failed? then Some(step.message) else None;
        }
        if result.Some? {
          outcome := Done(result);
          break;
        }
        i := i + 1;
      }
    }
  }
}
