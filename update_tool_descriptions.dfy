/**
 * The build-time script that regenerates each tool's description from its
 * input schema: which files it processes, where it finds their compiled
 * modules, and the description text it writes back. Directory listing,
 * module loading and the rewrite of the source file are not modelled.
 */
module ToolDescriptions {
  import opened Outcomes
  import opened Strings

  const BuildToolsDir := "build/tools"

  /** The filter over the source directory listing: `.ts` files except the index and the test file. */
  predicate IsToolFile(file: string)
  {
    EndsWith(file, ".ts") && file != "index.ts" && file != "tools.test.ts"
  }

  /** `files.filter(IsToolFile)`: the listing's tool files, in listing order. */
  function ToolFiles(files: seq<string>): (r: seq<string>)
    ensures forall f :: f in r <==> f in files && IsToolFile(f)
    ensures |r| <= |files|
  {
    if files == [] then []
    else (if IsToolFile(files[0]) then [files[0]] else []) + ToolFiles(files[1..])
  }

  /** Filtering a listing in two parts is filtering each part: the order of the listing is kept. */
  lemma {:induction false} ToolFilesOfConcatenation(a: seq<string>, b: seq<string>)
    ensures ToolFiles(a + b) == ToolFiles(a) + ToolFiles(b)
  {
    if a != [] {
      assert (a + b)[1..] == a[1..] + b;
      ToolFilesOfConcatenation(a[1..], b);
    } else {
      assert a + b == b;
    }
  }

  lemma ToolFileExamples()
    ensures IsToolFile("createAgent.ts") && IsToolFile("createAgent.test.ts")
    ensures !IsToolFile("index.ts") && !IsToolFile("tools.test.ts") && !IsToolFile("createAgent.js")
  {
  }

  /** `toolFile.replace('.ts', '.js')`: the compiled module's file name. */
  function BuildFileName(file: string): string
  {
    ReplaceFirst(file, ".ts", ".js")
  }

  /** `path.join(BUILD_TOOLS_DIR, toolFile.replace('.ts', '.js'))` for a bare file name. */
  function BuildFilePath(file: string): string
  {
    BuildToolsDir + "/" + BuildFileName(file)
  }

  /** When the final `.ts` is the only one, the build name is the file name with a `.js` extension. */
  lemma BuildNameSwapsExtension(file: string)
    requires EndsWith(file, ".ts")
    requires forall j :: 0 <= j < |file| - 3 ==> !Occurs(file, ".ts", j)
    ensures BuildFileName(file) == file[..|file| - 3] + ".js"
  {
    assert Occurs(file, ".ts", |file| - 3);
    assert file[|file|..] == [];
  }

  /** A tool file whose only `.ts` is its extension is loaded from `build/tools/` under the same name ending in `.js`. */
  lemma BuildPathOfToolFile(file: string)
    requires IsToolFile(file)
    requires forall j :: 0 <= j < |file| - 3 ==> !Occurs(file, ".ts", j)
    ensures BuildFilePath(file) == BuildToolsDir + "/" + file[..|file| - 3] + ".js"
  {
    BuildNameSwapsExtension(file);
  }

  /** An earlier `.ts` in the name is the one replaced, not the extension. */
  lemma BuildNameReplacesFirstOccurrence()
    ensures BuildFileName("a.tsx.ts") == "a.jsx.ts"
  {
    var file := "a.tsx.ts";
    assert file[1..4] == ".ts";
    assert Occurs(file, ".ts", 1);
    assert file[0..3][0] == 'a';
    assert !Occurs(file, ".ts", 0);
    assert file[..1] + ".js" + file[4..] == "a.jsx.ts";
  }

  /** One entry of `inputSchema.properties`; `None` stands for a missing attribute. */
  datatype Property = Property(
    name: string,
    propType: Option<string>,
    description: Option<string>,
    enumValues: Option<seq<string>>)

  /** An input schema: its properties in declaration order and its optional `required` list. */
  datatype Schema = Schema(properties: seq<Property>, required: Option<seq<string>>)

  const ParametersHeader := "\n\nParameters:"

  /** The description the script starts from: everything before the first parameters header. */
  function KeptDescription(description: string): (kept: string)
    ensures StartsWith(description, kept)
    ensures !Contains(kept, ParametersHeader)
    ensures Contains(description, ParametersHeader) ==> Occurs(description, ParametersHeader, |kept|)
    ensures !Contains(description, ParametersHeader) ==> kept == description
  {
    Before(description, ParametersHeader)
  }

  /** `inputSchema.required?.includes(name)`. */
  predicate IsRequired(schema: Schema, name: string)
  {
    schema.required.Some? && name in schema.required.value
  }

  /** `${paramDetails.type}`. */
  function TypeText(p: Property): string
  {
    match p.propType
    case None => "undefined"
    case Some(t) => t
  }

  /** `paramDetails.description || ''`. */
  function DescriptionText(p: Property): string
  {
    match p.description
    case None => ""
    case Some(d) => d
  }

  /** ` (values: …)`: the first five enum values joined by ", ", then "..." when there are more. */
  function EnumSuffix(values: seq<string>): string
  {
    var shown := if |values| <= 5 then values else values[..5];
    " (values: " + Join(shown, ", ") + (if |values| > 5 then "..." else "") + ")"
  }

  /**
   * The opening of the line the script writes for one property: name, type,
   * the required marker and the description.
   */
  function LineHead(p: Property, schema: Schema): string
  {
    "\n- `" + p.name + "` (" + TypeText(p) + (if IsRequired(schema, p.name) then ", required" else "") + "): "
      + DescriptionText(p)
  }

  /** The enum listing that closes a property's line, empty when the property has no `enum`. */
  function EnumPart(p: Property): string
  {
    match p.enumValues
    case None => ""
    case Some(values) => EnumSuffix(values)
  }

  /** The line the script writes for one property. */
  function ParamLine(p: Property, schema: Schema): string
  {
    LineHead(p, schema) + EnumPart(p)
  }

  /** The line of each property, in property order. */
  function Lines(props: seq<Property>, schema: Schema): seq<string>
  {
    seq(|props|, i requires 0 <= i < |props| => ParamLine(props[i], schema))
  }

  /** One line per property, in property order. */
  function ParamLines(props: seq<Property>, schema: Schema): string
  {
    ConcatUpTo(Lines(props, schema), |props|)
  }

  /** The regenerated description: the kept text, then a header and one line per property if there are any. */
  function Described(description: string, schema: Schema): string
  {
    if |schema.properties| == 0 then KeptDescription(description)
    else KeptDescription(description) + ParametersHeader + ParamLines(schema.properties, schema)
  }

  /** Builds the new description the way the script does, extending it property by property. */
  method FormatDescription(description: string, schema: Schema) returns (text: string)
    ensures text == Described(description, schema)
  {
    text := KeptDescription(description);
    if |schema.properties| > 0 {
      text := text + ParametersHeader;
      text := AppendParamLines(text, schema.properties, schema);
    }
  }

  /** The loop of the script: appends one line per property, in order, to `start`. */
  method AppendParamLines(start: string, props: seq<Property>, schema: Schema) returns (text: string)
    ensures text == start + ParamLines(props, schema)
  {
    text := start;
    var i := 0;
    while i < |props|
      invariant 0 <= i <= |props|
      invariant text == start + ConcatUpTo(Lines(props, schema), i)
    {
      var p := props[i];
      AppendLine(start, props, i, schema);
      text := text + LineHead(p, schema);
      if p.enumValues.Some? {
        text := text + EnumSuffix(p.enumValues.value);
      }
      i := i + 1;
    }
  }

  /** One more property extends the text by its line's opening and, if it has one, its enum listing. */
  lemma AppendLine(start: string, props: seq<Property>, i: nat, schema: Schema)
    requires i < |props|
    ensures var p := props[i];
      && (p.enumValues.None? ==>
            start + ConcatUpTo(Lines(props, schema), i + 1) == start + ConcatUpTo(Lines(props, schema), i) + LineHead(p, schema))
      && (p.enumValues.Some? ==>
            start + ConcatUpTo(Lines(props, schema), i + 1)
              == start + ConcatUpTo(Lines(props, schema), i) + LineHead(p, schema) + EnumSuffix(p.enumValues.value))
  {
    var p := props[i];
    var x := start + ConcatUpTo(Lines(props, schema), i);
    AppendAssociative(start, ConcatUpTo(Lines(props, schema), i), ParamLine(p, schema));
    AppendAssociative(x, LineHead(p, schema), EnumPart(p));
    if p.enumValues.None? {
      assert LineHead(p, schema) + EnumPart(p) == LineHead(p, schema);
    }
  }

  /** Property `i`'s line sits in the generated lines right after the lines of the properties before it. */
  lemma LinesAreInPropertyOrder(props: seq<Property>, i: nat, schema: Schema)
    requires i < |props|
    ensures var line := Lines(props, schema)[i];
      var start := |ConcatUpTo(Lines(props, schema), i)|;
      var text := ParamLines(props, schema);
      && line == ParamLine(props[i], schema)
      && start + |line| <= |text|
      && text[start..start + |line|] == line
  {
    PartFollowsEarlierParts(Lines(props, schema), i);
  }

  /**
   * Each line opens with the name and type, and `, required` follows the type
   * exactly when the property is listed as required.
   */
  lemma RequiredMarkerIffRequired(p: Property, schema: Schema)
    ensures var head := "\n- `" + p.name + "` (" + TypeText(p);
      && StartsWith(ParamLine(p, schema), head)
      && (IsRequired(schema, p.name) <==> StartsWith(ParamLine(p, schema)[|head|..], ", required"))
  {
    var head := "\n- `" + p.name + "` (" + TypeText(p);
    var line := ParamLine(p, schema);
    var tail := line[|head|..];
    assert line[..|head|] == head;
    if IsRequired(schema, p.name) {
      assert tail[..|", required"|] == ", required";
    } else {
      assert tail[0] == ')';
    }
  }

  /**
   * Without an enum a line ends with "): " and the description, and a missing
   * description leaves nothing after "): ".
   */
  lemma LineEndsWithDescription(p: Property, schema: Schema)
    requires p.enumValues.None?
    ensures EndsWith(ParamLine(p, schema), "): " + DescriptionText(p))
    ensures p.description.None? ==> EndsWith(ParamLine(p, schema), "): ")
  {
    var front := "\n- `" + p.name + "` (" + TypeText(p) + (if IsRequired(schema, p.name) then ", required" else "");
    var line := ParamLine(p, schema);
    assert line == front + ("): " + DescriptionText(p));
    assert line[|line| - |"): " + DescriptionText(p)|..] == "): " + DescriptionText(p);
  }

  /** Up to five enum values are all listed, in order, with no ellipsis. */
  lemma FiveOrFewerAreAllShown(values: seq<string>)
    requires |values| <= 5
    ensures EnumSuffix(values) == " (values: " + Join(values, ", ") + ")"
  {
  }

  /** The five `docType` values of the documentation tool are listed in full, with no ellipsis. */
  lemma DocTypeListing()
    ensures EnumSuffix(["tools", "models", "prompts", "chatvolt_http_tools", "cal_com_http_tools"])
      == " (values: " + ("tools" + ", " + "models" + ", " + "prompts" + ", " + "chatvolt_http_tools" + ", " + "cal_com_http_tools") + ")"
  {
    var v := ["tools", "models", "prompts", "chatvolt_http_tools", "cal_com_http_tools"];
    assert v[..1] == ["tools"];
    assert v[..2][..1] == v[..1];
    assert v[..3][..2] == v[..2];
    assert v[..4][..3] == v[..3];
    assert v[..5][..4] == v[..4];
    assert v[..5] == v;
    assert Join(v[..1], ", ") == "tools";
    assert Join(v[..2], ", ") == "tools" + ", " + "models";
    assert Join(v[..3], ", ") == "tools" + ", " + "models" + ", " + "prompts";
    assert Join(v[..4], ", ") == "tools" + ", " + "models" + ", " + "prompts" + ", " + "chatvolt_http_tools";
    var j := Join(v, ", ");
    assert j == "tools" + ", " + "models" + ", " + "prompts" + ", " + "chatvolt_http_tools" + ", " + "cal_com_http_tools";
    assert EnumSuffix(v) == " (values: " + j + "" + ")";
    assert " (values: " + j + "" == " (values: " + j;
  }

  /** The six datasource statuses of the datastore tool are listed as their first five and "...". */
  lemma StatusListing()
    ensures EnumSuffix(["unsynched", "pending", "running", "synched", "error", "usage_limit_reached"])
      == " (values: " + ("unsynched" + ", " + "pending" + ", " + "running" + ", " + "synched" + ", " + "error") + "..." + ")"
  {
    var v := ["unsynched", "pending", "running", "synched", "error", "usage_limit_reached"];
    var w := v[..5];
    assert w == ["unsynched", "pending", "running", "synched", "error"];
    assert w[..1] == ["unsynched"];
    assert w[..2][..1] == w[..1];
    assert w[..3][..2] == w[..2];
    assert w[..4][..3] == w[..3];
    assert w[..5][..4] == w[..4];
    assert w[..5] == w;
    assert Join(w[..1], ", ") == "unsynched";
    assert Join(w[..2], ", ") == "unsynched" + ", " + "pending";
    assert Join(w[..3], ", ") == "unsynched" + ", " + "pending" + ", " + "running";
    assert Join(w[..4], ", ") == "unsynched" + ", " + "pending" + ", " + "running" + ", " + "synched";
    assert Join(w, ", ") == "unsynched" + ", " + "pending" + ", " + "running" + ", " + "synched" + ", " + "error";
  }

  /** Values past the fifth never show: two enums that agree on their first five values get the same listing. */
  lemma ValuesPastFiveAreNotShown(a: seq<string>, b: seq<string>)
    requires |a| > 5 && |b| > 5 && a[..5] == b[..5]
    ensures EnumSuffix(a) == EnumSuffix(b)
  {
  }

  /**
   * An enum of more than five values is listed as its first five would be,
   * with "..." before the closing parenthesis.
   */
  lemma EllipsisMarksMoreThanFive(values: seq<string>)
    requires |values| > 5
    ensures var s := EnumSuffix(values[..5]);
      |s| > 0 && EnumSuffix(values) == s[..|s| - 1] + "..." + ")"
  {
    var s := EnumSuffix(values[..5]);
    var x := " (values: " + Join(values[..5], ", ");
    assert s == x + "" + ")";
    assert s[..|s| - 1] == x;
  }

  /** A parameters header, once appended, is the first one in the text. */
  lemma {:induction false} HeaderIsFirstAfterKept(kept: string, lines: string)
    requires forall j :: !Occurs(kept, ParametersHeader, j)
    ensures forall j :: 0 <= j < |kept| ==> !Occurs(kept + ParametersHeader + lines, ParametersHeader, j)
  {
    var h := ParametersHeader;
    var x := kept + h + lines;
    assert '\n' !in h[2..];
    forall j | 0 <= j < |kept| ensures !Occurs(x, h, j) {
      if j + |h| > |x| {
      } else if j + |h| <= |kept| {
        assert x[j..j + |h|] == kept[j..j + |h|];
        assert !Occurs(kept, h, j);
      } else {
        var d := |kept| - j;
        var w := x[j..j + |h|];
        if d == 1 {
          assert w[2] == x[|kept| + 1] == h[1];
          assert w[2] != h[2];
        } else {
          assert w[d] == x[|kept|] == h[0];
          assert h[d] == h[2..][d - 2];
          assert w[d] != h[d];
        }
      }
    }
  }

  /** Keeping the text before the header of a generated description gives back the text it was built from. */
  lemma KeptOfGenerated(kept: string, lines: string)
    requires forall j :: !Occurs(kept, ParametersHeader, j)
    ensures KeptDescription(kept + ParametersHeader + lines) == kept
  {
    var x := kept + ParametersHeader + lines;
    assert Occurs(x, ParametersHeader, |kept|) by {
      assert x[|kept|..|kept| + |ParametersHeader|] == ParametersHeader;
    }
    HeaderIsFirstAfterKept(kept, lines);
    var r := KeptDescription(x);
    assert |r| == |kept|;
    assert r == x[..|kept|];
  }

  /** A description with no properties to list is the kept text, and keeping it again changes nothing. */
  lemma KeptIsStable(description: string, schema: Schema)
    requires |schema.properties| == 0
    ensures Described(description, schema) == KeptDescription(description)
    ensures !Contains(KeptDescription(description), ParametersHeader)
    ensures KeptDescription(KeptDescription(description)) == KeptDescription(description)
  {
    var kept := KeptDescription(description);
    assert forall j :: !Occurs(kept, ParametersHeader, j);
  }

  /** Regenerating an already generated description with the same schema changes nothing. */
  lemma DescribedIsIdempotent(description: string, schema: Schema)
    ensures Described(Described(description, schema), schema) == Described(description, schema)
  {
    var kept := KeptDescription(description);
    if |schema.properties| > 0 {
      KeptOfGenerated(kept, ParamLines(schema.properties, schema));
    } else {
      KeptIsStable(description, schema);
    }
  }

  /** The result has a parameters header exactly when the schema has properties. */
  lemma HeaderIffProperties(description: string, schema: Schema)
    ensures Contains(Described(description, schema), ParametersHeader) <==> |schema.properties| > 0
  {
    var kept := KeptDescription(description);
    var x := Described(description, schema);
    if |schema.properties| > 0 {
      assert x[|kept|..|kept| + |ParametersHeader|] == ParametersHeader;
      assert Occurs(x, ParametersHeader, |kept|);
    } else {
      KeptIsStable(description, schema);
    }
  }
}
