/** The OpenAPI bundler: external references are inlined, and references into the schema file become local ones. */
module Bundle {
  import opened Basics
  import opened Pointer

  const LOCAL: string := "#/components/schemas/"

  predicate StartsWith(s: string, prefix: string) {
    prefix <= s
  }

  /** The name after the first of the three spellings of the schema file that the reference starts with. */
  function SchemaName(ref: string): Option<string> {
    if StartsWith(ref, "../components/schemas.yml#/") then Some(ref[|"../components/schemas.yml#/"|..])
    else if StartsWith(ref, "./components/schemas.yml#/") then Some(ref[|"./components/schemas.yml#/"|..])
    else if StartsWith(ref, "components/schemas.yml#/") then Some(ref[|"components/schemas.yml#/"|..])
    else None
  }

  function NormalizeSchemaRef(ref: string): Option<string> {
    var name := SchemaName(ref);
    if name.Some? then Some(LOCAL + name.value) else None
  }

  function Rewritten(ref: string): string {
    var local := NormalizeSchemaRef(ref);
    if local.Some? then local.value else ref
  }

  /** What becomes of a node that a mapping holds under the key. */
  function NormalizedAt(key: string, node: Node): Node
    decreases node, 1
  {
    if key == "$ref" && node.Text? then Text(Rewritten(node.text)) else Normalized(node)
  }

  function Normalized(node: Node): Node
    decreases node, 0
  {
    match node
    case Dict(fields) => Dict(map key | key in fields :: NormalizedAt(key, fields[key]))
    case Items(items) => Items(seq(|items|, i requires 0 <= i < |items| => Normalized(items[i])))
    case _ => node
  }

  /** normalize_refs: rewrite the reference of a mapping, then go through what it holds. */
  method NormalizeRefs(node: Node) returns (result: Node)
    ensures result == Normalized(node)
    decreases node
  {
    match node
    case Dict(fields) =>
      var out: map<string, Node> := map[];
      var todo := fields.Keys;
      while todo != {}
        invariant todo <= fields.Keys && out.Keys == fields.Keys - todo
        invariant forall key | key in out :: out[key] == NormalizedAt(key, fields[key])
      {
        var key :| key in todo;
        var value := fields[key];
        if key == "$ref" && value.Text? {
          var normalized := NormalizeSchemaRef(value.text);
          if normalized.Some? {
            value := Text(normalized.value);
          }
        } else {
          value := NormalizeRefs(value);
        }
        out := out[key := value];
        todo := todo - {key};
      }
      result := Dict(out);
    case Items(items) =>
      var out: seq<Node> := [];
      var i := 0;
      while i < |items|
        invariant i <= |items| && |out| == i
        invariant forall j | 0 <= j < i :: out[j] == Normalized(items[j])
      {
        var item := NormalizeRefs(items[i]);
        out := out + [item];
        i := i + 1;
      }
      result := Items(out);
    case _ =>
      result := node;
  }

  /** The spellings of the schema file in references. */
  predicate IsSchemaPrefix(prefix: string) {
    || prefix == "../components/schemas.yml#/"
    || prefix == "./components/schemas.yml#/"
    || prefix == "components/schemas.yml#/"
  }

  /** A reference is rewritten just when it is a spelling of the schema file followed by a name, which it keeps. */
  lemma {:induction false} RewritesExactly(ref: string, name: string)
    ensures NormalizeSchemaRef(ref) == Some("#/components/schemas/" + name) <==>
            || ref == "../components/schemas.yml#/" + name
            || ref == "./components/schemas.yml#/" + name
            || ref == "components/schemas.yml#/" + name
    ensures NormalizeSchemaRef(ref).None? <==>
            && !("../components/schemas.yml#/" <= ref) && !("./components/schemas.yml#/" <= ref)
            && !("components/schemas.yml#/" <= ref)
  {
    SchemaNames(ref, name);
    assert (LOCAL + name)[|LOCAL|..] == name;
    if SchemaName(ref).Some? { assert (LOCAL + SchemaName(ref).value)[|LOCAL|..] == SchemaName(ref).value; }
  }

  lemma SchemaNames(ref: string, name: string)
    ensures SchemaName(ref) == Some(name) <==>
            || ref == "../components/schemas.yml#/" + name
            || ref == "./components/schemas.yml#/" + name
            || ref == "components/schemas.yml#/" + name
  {
    if ref == "../components/schemas.yml#/" + name {
      assert ref[|"../components/schemas.yml#/"|..] == name;
    } else if ref == "./components/schemas.yml#/" + name {
      assert ref[|"./components/schemas.yml#/"|..] == name && ref[1] == '/';
    } else if ref == "components/schemas.yml#/" + name {
      assert ref[|"components/schemas.yml#/"|..] == name && ref[0] == 'c';
    }
  }

  lemma {:induction false} PrefixRewritten(prefix: string, name: string)
    requires IsSchemaPrefix(prefix)
    ensures SchemaName(prefix + name) == Some(name)
    ensures Rewritten(prefix + name) == "#/components/schemas/" + name
  {
    RewritesExactly(prefix + name, name);
    assert (LOCAL + name)[|LOCAL|..] == name;
    assert (LOCAL + SchemaName(prefix + name).value)[|LOCAL|..] == SchemaName(prefix + name).value;
  }

  /** A local reference is not rewritten again. */
  lemma {:induction false} RewrittenOnce(ref: string)
    ensures NormalizeSchemaRef(Rewritten(ref)).None?
  {
    var local := Rewritten(ref);
    if NormalizeSchemaRef(ref).Some? {
      assert local[0] == '#';
    }
  }

  lemma {:induction false} NormalizeIdempotent(node: Node)
    ensures Normalized(Normalized(node)) == Normalized(node)
    decreases node
  {
    match node
    case Dict(fields) =>
      forall key | key in fields ensures NormalizedAt(key, NormalizedAt(key, fields[key])) ==
        NormalizedAt(key, fields[key]) {
        if key == "$ref" && fields[key].Text? {
          RewrittenOnce(fields[key].text);
        } else {
          NormalizeIdempotent(fields[key]);
        }
      }
    case Items(items) =>
      forall i | 0 <= i < |items| ensures Normalized(Normalized(items[i])) == Normalized(items[i]) {
        NormalizeIdempotent(items[i]);
      }
    case _ =>
  }

  /** What normalising does to the outcome of following a key path. */
  function NormalizedOutcome(keys: seq<string>, outcome: Result<Node, Error>): Result<Node, Error> {
    if outcome.Err? then outcome
    else Ok(if keys == [] then Normalized(outcome.value) else NormalizedAt(keys[|keys| - 1], outcome.value))
  }

  /** Normalising commutes with following any key path, to success or to the same error. */
  lemma {:induction false} NormalizeCommutes(node: Node, keys: seq<string>)
    ensures Walk(Normalized(node), keys) == NormalizedOutcome(keys, Walk(node, keys))
    decreases keys
  {
    if keys != [] && node.Dict? && keys[0] in node.fields {
      var child := node.fields[keys[0]];
      NormalizeCommutes(child, keys[1..]);
    }
  }

  /** str.partition at the first hash: what is before it. */
  function PathPart(ref: string): string {
    if ref == "" || ref[0] == '#' then "" else [ref[0]] + PathPart(ref[1..])
  }

  /** str.partition at the first hash: what is after it. */
  function Fragment(ref: string): string {
    if ref == "" then "" else if ref[0] == '#' then ref[1..] else Fragment(ref[1..])
  }

  /** The files that references name, as loaded; every loaded document must be a mapping. */
  type Files = map<string, Node>

  function ExternalRef(ref: Node, files: Files): Result<Node, Error> {
    if !ref.Text? then Err(AttributeError)
    else if PathPart(ref.text) !in files then Err(FileError(PathPart(ref.text)))
    else if !files[PathPart(ref.text)].Dict? then Err(ValueError(PathPart(ref.text)))
    else Resolved(files[PathPart(ref.text)], "#" + Fragment(ref.text))
  }

  /** A mapping that holds a reference and nothing else. */
  predicate OnlyRef(node: Node) {
    node.Dict? && node.fields.Keys == {"$ref"}
  }

  function Included(node: Node, files: Files): Result<Node, Error> {
    if OnlyRef(node) then ExternalRef(node.fields["$ref"], files) else Ok(node)
  }

  function Field(fields: map<string, Node>, name: string): Node {
    if name in fields then fields[name] else Dict(map[])
  }

  /** A section of the components, with its document inlined when it is a reference to one. */
  function Inlined(components: map<string, Node>, name: string, files: Files): Option<map<string, Node>> {
    if name !in components then Some(components)
    else
      var section := Included(components[name], files);
      if section.Ok? then Some(components[name := section.value]) else None
  }

  /** Every path item can be included. */
  predicate PathsLoad(paths: map<string, Node>, files: Files) {
    forall path | path in paths :: Included(paths[path], files).Ok?
  }

  function BundledPaths(paths: map<string, Node>, files: Files): map<string, Node>
    requires PathsLoad(paths, files)
  {
    map path | path in paths :: Normalized(Included(paths[path], files).value)
  }

  function BundledComponents(components: map<string, Node>, files: Files): Option<map<string, Node>> {
    var schemas := Inlined(components, "schemas", files);
    if schemas.None? then None else Inlined(schemas.value, "securitySchemes", files)
  }

  /** The bundled document; None when the script stops with an exception. */
  function Bundled(root: map<string, Node>, files: Files): Option<Node> {
    var paths, components := Field(root, "paths"), Field(root, "components");
    if !paths.Dict? || !components.Dict? || !PathsLoad(paths.fields, files) then None
    else
      var sections := BundledComponents(components.fields, files);
      if sections.None? then None
      else
        var bundledPaths := Dict(BundledPaths(paths.fields, files));
        Some(Dict(root["paths" := bundledPaths]["components" := Normalized(Dict(sections.value))]))
  }

  /** resolve_external_ref: the whole of the named file without a fragment, and what its keys reach with one. */
  method ResolveExternalRef(ref: Node, files: Files) returns (result: Result<Node, Error>)
    ensures result == ExternalRef(ref, files)
    ensures ref.Text? && PathPart(ref.text) in files && files[PathPart(ref.text)].Dict? ==>
      var file, fragment := files[PathPart(ref.text)], Fragment(ref.text);
      result == if fragment == "" then Ok(file)
                else if fragment[0] == '/' then Walk(file, PointerKeys(fragment))
                else Err(ValueError(fragment))
    ensures result.Ok? ==> ref.Text? && PathPart(ref.text) in files && files[PathPart(ref.text)].Dict?
  {
    if !ref.Text? {
      return Err(AttributeError);
    }
    var path, fragment := PathPart(ref.text), Fragment(ref.text);
    if path !in files {
      return Err(FileError(path));
    }
    if !files[path].Dict? {
      return Err(ValueError(path));
    }
    assert fragment != "" ==> ("#" + fragment)[1..] == fragment;
    result := ResolvePointer(files[path], if fragment != "" then "#" + fragment else "#");
  }

  method InlineSection(components: map<string, Node>, name: string, files: Files)
    returns (result: Option<map<string, Node>>)
    ensures result == Inlined(components, name, files)
  {
    result := Some(components);
    if name in components && OnlyRef(components[name]) {
      var section := ResolveExternalRef(components[name].fields["$ref"], files);
      result := if section.Ok? then Some(components[name := section.value]) else None;
    }
    assert name in components ==> components[name := components[name]] == components;
  }

  /** bundle_openapi, from the loaded entry document to the document that is written. */
  method BundleOpenapi(root: map<string, Node>, files: Files) returns (result: Option<Node>)
    ensures result == Bundled(root, files)
  {
    var paths, components := Field(root, "paths"), Field(root, "components");
    if !paths.Dict? {
      return None;
    }
    var bundled: map<string, Node> := map[];
    var todo := paths.fields.Keys;
    while todo != {}
      invariant todo <= paths.fields.Keys && bundled.Keys == paths.fields.Keys - todo
      invariant forall path | path in bundled ::
        && Included(paths.fields[path], files).Ok?
        && bundled[path] == Normalized(Included(paths.fields[path], files).value)
    {
      var path :| path in todo;
      var item := paths.fields[path];
      if OnlyRef(item) {
        var included := ResolveExternalRef(item.fields["$ref"], files);
        if included.Err? {
          assert !PathsLoad(paths.fields, files);
          return None;
        }
        item := included.value;
      }
      item := NormalizeRefs(item);
      bundled, todo := bundled[path := item], todo - {path};
    }
    assert bundled == BundledPaths(paths.fields, files);
    if !components.Dict? {
      return None;
    }
    var schemas := InlineSection(components.fields, "schemas", files);
    if schemas.None? {
      return None;
    }
    var sections := InlineSection(schemas.value, "securitySchemes", files);
    if sections.None? {
      return None;
    }
    var normalized := NormalizeRefs(Dict(sections.value));
    result := Some(Dict(root["paths" := Dict(bundled)]["components" := normalized]));
  }

  /** The section of the components that the script may inline. */
  predicate InlinedSection(name: string) {
    name == "schemas" || name == "securitySchemes"
  }

  /**
   * What the bundled document is made of: the same fields, paths and sections as the entry document; each path item and
   * each of the two sections with its reference followed, all of them normalised; every other field as it was.
   */
  lemma BundledParts(root: map<string, Node>, files: Files)
    requires Bundled(root, files).Some?
    ensures var paths, components := Field(root, "paths").fields, Field(root, "components").fields;
            var out := Bundled(root, files).value;
            && out.Dict? && out.fields.Keys == root.Keys + {"paths", "components"}
            && (forall name | name in root && name != "paths" && name != "components" :: out.fields[name] == root[name])
            && out.fields["paths"].Dict? && out.fields["paths"].fields.Keys == paths.Keys
            && (forall path | path in paths ::
                  && Included(paths[path], files).Ok?
                  && out.fields["paths"].fields[path] == Normalized(Included(paths[path], files).value))
            && out.fields["components"].Dict? && out.fields["components"].fields.Keys == components.Keys
            && (forall name | name in components ::
                  var section :=
                    if InlinedSection(name) then Included(components[name], files) else Ok(components[name]);
                  section.Ok? && out.fields["components"].fields[name] == NormalizedAt(name, section.value))
  {
    var components := Field(root, "components").fields;
    var sections := BundledComponents(components, files).value;
    assert sections.Keys == components.Keys;
    assert Normalized(Dict(sections)).Dict?;
  }

  /** The script stops just when paths or components are no mappings or a reference it follows leads nowhere. */
  lemma BundledWhen(root: map<string, Node>, files: Files)
    ensures Bundled(root, files).Some? <==>
      && Field(root, "paths").Dict? && Field(root, "components").Dict?
      && (forall path | path in Field(root, "paths").fields :: Included(Field(root, "paths").fields[path], files).Ok?)
      && (forall name | name in Field(root, "components").fields && InlinedSection(name) ::
            Included(Field(root, "components").fields[name], files).Ok?)
  {}

  lemma {:induction false} PartitionAt(head: string, tail: string)
    requires '#' !in head
    ensures PathPart(head + "#" + tail) == head && Fragment(head + "#" + tail) == tail
  {
    if head == "" {
      assert "" + "#" + tail == "#" + tail;
    } else {
      assert head[0] in head;
      assert '#' !in head[1..] by { assert forall c | c in head[1..] :: c in head; }
      PartitionAt(head[1..], tail);
      assert (head + "#" + tail)[1..] == head[1..] + "#" + tail;
    }
  }

  lemma {:induction false} PartitionNone(path: string)
    requires '#' !in path
    ensures PathPart(path) == path && Fragment(path) == ""
  {
    if path != "" {
      assert path[0] in path;
      assert '#' !in path[1..] by { assert forall c | c in path[1..] :: c in path; }
      PartitionNone(path[1..]);
    }
  }

  /**
   * The reference made from a file and a key path resolves to exactly what the path reaches in the file, or to the
   * error it meets there; the bare file name stands for the whole file.
   */
  lemma {:induction false} ExternalRefReaches(files: Files, path: string, keys: seq<string>)
    requires '#' !in path && path in files && files[path].Dict?
    ensures ExternalRef(Text(path + "#" + ToPointer(keys)), files) == Walk(files[path], keys)
    ensures ExternalRef(Text(path), files) == Ok(files[path])
  {
    PartitionAt(path, ToPointer(keys));
    PartitionNone(path);
    PointerRoundTrip(files[path], keys);
  }

  /** What a reference into the schema file points at there. */
  lemma SchemaFragment(ref: string)
    requires SchemaName(ref).Some?
    ensures Fragment(ref) == "/" + SchemaName(ref).value
    ensures PathPart(ref) in {"../components/schemas.yml", "./components/schemas.yml", "components/schemas.yml"}
  {
    var name := SchemaName(ref).value;
    if StartsWith(ref, "../components/schemas.yml#/") {
      assert ref == "../components/schemas.yml" + "#" + ("/" + name);
      PartitionAt("../components/schemas.yml", "/" + name);
    } else if StartsWith(ref, "./components/schemas.yml#/") {
      assert ref == "./components/schemas.yml" + "#" + ("/" + name);
      PartitionAt("./components/schemas.yml", "/" + name);
    } else {
      assert ref == "components/schemas.yml" + "#" + ("/" + name);
      PartitionAt("components/schemas.yml", "/" + name);
    }
  }

  lemma {:induction false} ReplacePlain(s: string, second: char, repl: char)
    requires '~' !in s
    ensures Replace(s, '~', second, repl) == s
  {
    if s != "" {
      assert s[0] in s;
      assert '~' !in s[1..] by { assert forall c | c in s[1..] :: c in s; }
      ReplacePlain(s[1..], second, repl);
    }
  }

  lemma {:induction false} SplitPart(part: string, rest: string)
    requires '/' !in part
    ensures Split(part + "/" + rest) == [part] + Split(rest)
  {
    if part == "" {
      assert "" + "/" + rest == "/" + rest;
    } else {
      assert part[0] in part;
      assert '/' !in part[1..] by { assert forall c | c in part[1..] :: c in part; }
      SplitPart(part[1..], rest);
      SplitChar(part[0], part[1..] + "/" + rest);
      assert part + "/" + rest == [part[0]] + (part[1..] + "/" + rest);
      assert [part[0]] + part[1..] == part;
    }
  }

  lemma UnescapePlain(part: string)
    requires '~' !in part
    ensures Unescape(part) == part
  {
    ReplacePlain(part, '1', '/');
    ReplacePlain(part, '0', '~');
  }

  lemma UnescapeTwo(first: string, second: string, rest: seq<string>)
    requires '~' !in first && '~' !in second
    ensures UnescapeAll([first, second] + rest) == [first, second] + UnescapeAll(rest)
  {
    UnescapePlain(first);
    UnescapePlain(second);
    var parts := [first, second] + rest;
    assert parts[1..] == [second] + rest && parts[1..][1..] == rest;
  }

  lemma SplitTwo(first: string, second: string, rest: string)
    requires '/' !in first && '/' !in second
    ensures Split(first + "/" + (second + "/" + rest)) == [first, second] + Split(rest)
  {
    SplitPart(first, second + "/" + rest);
    SplitPart(second, rest);
  }

  /** The keys of a local reference: the two fixed ones, then those of the schema. */
  lemma LocalKeys(name: string)
    ensures PointerKeys("/components/schemas/" + name) == ["components", "schemas"] + UnescapeAll(Split(name))
  {
    var path := "/components/schemas/" + name;
    assert path[1..] == "components" + "/" + ("schemas" + "/" + name);
    SplitTwo("components", "schemas", name);
    UnescapeTwo("components", "schemas", Split(name));
  }

  lemma LocalResolves(document: Node, name: string)
    ensures Resolved(document, LOCAL + name) == Walk(document, ["components", "schemas"] + UnescapeAll(Split(name)))
  {
    var pointer := LOCAL + name;
    assert pointer[1..] == "/components/schemas/" + name;
    LocalKeys(name);
  }

  /** The schemas section is a reference to a whole document. */
  predicate WholeSchemas(root: map<string, Node>) {
    && "components" in root && root["components"].Dict? && "schemas" in root["components"].fields
    && root["components"].fields["schemas"].Dict?
    && root["components"].fields["schemas"].fields.Keys == {"$ref"}
    && root["components"].fields["schemas"].fields["$ref"].Text?
    && Fragment(root["components"].fields["schemas"].fields["$ref"].text) == ""
  }

  /** The document the schemas section refers to. */
  function SchemaFile(root: map<string, Node>, files: Files): Option<Node>
    requires WholeSchemas(root)
  {
    var path := PathPart(root["components"].fields["schemas"].fields["$ref"].text);
    if path in files then Some(files[path]) else None
  }

  lemma SchemasInlined(root: map<string, Node>, files: Files, keys: seq<string>)
    requires WholeSchemas(root) && Bundled(root, files).Some?
    ensures SchemaFile(root, files).Some?
    ensures Walk(Bundled(root, files).value, ["components", "schemas"] + keys) ==
            Walk(Normalized(SchemaFile(root, files).value), keys)
  {
    var components := root["components"].fields;
    var out := Bundled(root, files).value;
    var file := SchemaFile(root, files).value;
    assert Inlined(components, "schemas", files) == Some(components["schemas" := file]);
    var sections := BundledComponents(components, files).value;
    assert sections["schemas"] == file;
    var path := ["components", "schemas"] + keys;
    assert path[1..] == ["schemas"] + keys && path[1..][1..] == keys;
    assert out.fields["components"] == Normalized(Dict(sections));
  }

  /**
   * A rewritten reference resolves in the bundled document to the normalised form of what the reference resolved to in
   * the schema file, and fails there with the same error when it failed.
   */
  lemma {:induction false} ReferencePreserved(root: map<string, Node>, files: Files, ref: string)
    requires WholeSchemas(root) && Bundled(root, files).Some? && NormalizeSchemaRef(ref).Some?
    ensures SchemaFile(root, files).Some? && Fragment(ref) != ""
    ensures Resolved(Bundled(root, files).value, NormalizeSchemaRef(ref).value) ==
            NormalizedOutcome(PointerKeys(Fragment(ref)), Resolved(SchemaFile(root, files).value, "#" + Fragment(ref)))
  {
    var name := SchemaName(ref).value;
    var keys := UnescapeAll(Split(name));
    SchemaFragment(ref);
    assert ("/" + name)[1..] == name && ("#" + ("/" + name))[1..] == "/" + name;
    LocalResolves(Bundled(root, files).value, name);
    SchemasInlined(root, files, keys);
    NormalizeCommutes(SchemaFile(root, files).value, keys);
  }

  /** What normalising does to what is found at a position. */
  function NormalizedFound(position: seq<Place>, found: Option<Node>): Option<Node> {
    if found.None? then None
    else if position != [] && position[|position| - 1].Key? then
      Some(NormalizedAt(position[|position| - 1].key, found.value))
    else Some(Normalized(found.value))
  }

  /** Normalising commutes with going to any position, through mappings and lists. */
  lemma {:induction false} NormalizeReaches(node: Node, position: seq<Place>)
    ensures Reach(Normalized(node), position) == NormalizedFound(position, Reach(node, position))
    decreases position
  {
    if position != [] {
      match position[0]
      case Key(key) => if node.Dict? && key in node.fields { NormalizeReaches(node.fields[key], position[1..]); }
      case Index(i) => if node.Items? && i < |node.items| { NormalizeReaches(node.items[i], position[1..]); }
    }
  }

  /** The position is that of a reference. */
  predicate AtRef(position: seq<Place>) {
    position != [] && position[|position| - 1] == Key("$ref")
  }

  /** Mappings keep their keys, lists their length and scalars their value; a text stays a text. */
  predicate SameShape(was: Node, now: Node) {
    match was
    case Dict(fields) => now.Dict? && now.fields.Keys == fields.Keys
    case Items(items) => now.Items? && |now.items| == |items|
    case Other(_) => now == was
    case Text(_) => now.Text?
  }

  lemma ShapeKept(key: string, node: Node)
    ensures SameShape(node, Normalized(node)) && SameShape(node, NormalizedAt(key, node))
    ensures node.Text? ==> Normalized(node) == node
  {}

  /** What a reference becomes: local when it begins with a spelling of the schema file, and otherwise what it was. */
  ghost predicate RefBecomes(was: string, now: string) {
    && (forall prefix, name | IsSchemaPrefix(prefix) && was == prefix + name :: now == "#/components/schemas/" + name)
    && ((forall prefix | IsSchemaPrefix(prefix) :: !(prefix <= was)) ==> now == was)
  }

  lemma RewrittenBecomes(ref: string)
    ensures RefBecomes(ref, Rewritten(ref))
  {
    RewritesExactly(ref, "");
    assert IsSchemaPrefix("../components/schemas.yml#/") && IsSchemaPrefix("./components/schemas.yml#/");
    assert IsSchemaPrefix("components/schemas.yml#/");
    forall prefix, name | IsSchemaPrefix(prefix) && ref == prefix + name
      ensures Rewritten(ref) == "#/components/schemas/" + name
    {
      PrefixRewritten(prefix, name);
    }
  }

  /**
   * Normalising, position by position: the tree keeps its shape, its scalars and its texts; only a reference that
   * begins
   * with a spelling of the schema file becomes a local one to the same name.
   */
  lemma {:induction false} NormalizesExactly(node: Node, position: seq<Place>)
    ensures var was, now := Reach(node, position), Reach(Normalized(node), position);
            && (was.None? <==> now.None?)
            && (was.Some? ==> SameShape(was.value, now.value))
            && (was.Some? && was.value.Text? ==>
                  if AtRef(position) then RefBecomes(was.value.text, now.value.text) else now == was)
  {
    var was := Reach(node, position);
    NormalizeReaches(node, position);
    if was.Some? {
      var last := if position == [] then Index(0) else position[|position| - 1];
      ShapeKept(if last.Key? then last.key else "", was.value);
      if was.value.Text? { RewrittenBecomes(was.value.text); }
    }
  }

  /** The document with path items and sections included, before it is normalised. */
  function Assembled(root: map<string, Node>, files: Files): Node
    requires Bundled(root, files).Some?
  {
    var paths, components := Field(root, "paths").fields, Field(root, "components").fields;
    var items := map path | path in paths :: Included(paths[path], files).value;
    Dict(root["paths" := Dict(items)]["components" := Dict(BundledComponents(components, files).value)])
  }

  /** Where in the document a position leads that is inside a path item or inside the components. */
  function Inside(position: seq<Place>): Option<seq<Place>> {
    if |position| >= 2 && position[0] == Key("paths") && position[1].Key? then Some(position[2..])
    else if |position| >= 1 && position[0] == Key("components") then Some(position[1..])
    else None
  }

  /** At every position of paths and components, the bundled document holds the normalised form of what was there. */
  lemma {:induction false} PlacesNormalized(root: map<string, Node>, files: Files, position: seq<Place>)
    requires Bundled(root, files).Some? && Inside(position).Some?
    ensures Reach(Bundled(root, files).value, position) ==
            NormalizedFound(Inside(position).value, Reach(Assembled(root, files), position))
  {
    var paths, components := Field(root, "paths").fields, Field(root, "components").fields;
    var out, whole := Bundled(root, files).value, Assembled(root, files);
    var inner := Inside(position).value;
    if position[0] == Key("paths") {
      var path := position[1].key;
      assert out.fields["paths"] == Dict(BundledPaths(paths, files));
      assert position[1..][1..] == inner;
      if path in paths { NormalizeReaches(Included(paths[path], files).value, inner); }
    } else {
      assert out.fields["components"] == Normalized(whole.fields["components"]);
      NormalizeReaches(whole.fields["components"], inner);
    }
  }

  const REF: Place := Key("$ref")

  /** The mapping at the position holds this reference. */
  predicate HoldsRef(node: Node, position: seq<Place>, ref: string) {
    Reach(node, position + [REF]) == Some(Text(ref))
  }

  /** What normalising makes of a node under $ref is a text just when it was one, rewritten. */
  lemma RefNormalized(node: Node, ref: string)
    ensures NormalizedAt("$ref", node) == Text(ref) <==> node.Text? && Rewritten(node.text) == ref
  {}

  lemma InsideRef(position: seq<Place>)
    requires Inside(position).Some?
    ensures Inside(position + [REF]) == Some(Inside(position).value + [REF])
  {
    assert Inside(position + [REF]).value == Inside(position).value + [REF];
  }

  /**
   * Wherever a path item or the components held a reference, under keys and in lists, the bundled document holds its
   * rewritten form; and it holds no other reference there.
   */
  lemma {:induction false} ReferencesRewritten(root: map<string, Node>, files: Files, position: seq<Place>, ref: string)
    requires Bundled(root, files).Some? && Inside(position).Some?
    ensures var was := Reach(Assembled(root, files), position + [REF]);
            HoldsRef(Bundled(root, files).value, position, ref) <==>
            was.Some? && was.value.Text? && Rewritten(was.value.text) == ref
  {
    var at := position + [REF];
    PlacesNormalized(root, files, at);
    InsideRef(position);
    var found := Reach(Assembled(root, files), at);
    if found.Some? { RefNormalized(found.value, ref); }
  }

  /** No mapping in the paths or components of a bundled document refers to the schema file any more. */
  lemma {:induction false} NoSchemaFileRefs(root: map<string, Node>, files: Files, position: seq<Place>, ref: string)
    requires Bundled(root, files).Some? && Inside(position).Some?
    requires HoldsRef(Bundled(root, files).value, position, ref)
    ensures forall prefix | IsSchemaPrefix(prefix) :: !(prefix <= ref)
  {
    ReferencesRewritten(root, files, position, ref);
    RewrittenOnce(Reach(Assembled(root, files), position + [REF]).value.text);
    RewritesExactly(ref, "");
  }

  /** End to end: every reference into the schema file is replaced by a local one that means the same. */
  lemma {:induction false} MeaningPreserved(
    root: map<string, Node>, files: Files, position: seq<Place>, prefix: string, name: string)
    requires WholeSchemas(root) && Bundled(root, files).Some? && Inside(position).Some?
    requires IsSchemaPrefix(prefix) && HoldsRef(Assembled(root, files), position, prefix + name)
    ensures HoldsRef(Bundled(root, files).value, position, "#/components/schemas/" + name)
    ensures SchemaFile(root, files).Some?
    ensures Resolved(Bundled(root, files).value, "#/components/schemas/" + name) ==
            NormalizedOutcome(PointerKeys("/" + name), Resolved(SchemaFile(root, files).value, "#/" + name))
  {
    PrefixRewritten(prefix, name);
    ReferencesRewritten(root, files, position, "#/components/schemas/" + name);
    NameResolves(root, files, prefix + name, name);
  }

  lemma NameResolves(root: map<string, Node>, files: Files, ref: string, name: string)
    requires WholeSchemas(root) && Bundled(root, files).Some? && SchemaName(ref) == Some(name)
    ensures SchemaFile(root, files).Some?
    ensures Resolved(Bundled(root, files).value, LOCAL + name) ==
            NormalizedOutcome(PointerKeys("/" + name), Resolved(SchemaFile(root, files).value, "#/" + name))
  {
    SchemaFragment(ref);
    ReferencePreserved(root, files, ref);
    assert "#" + ("/" + name) == "#/" + name;
  }

  /** A mapping with a reference as its only field. */
  function Reference(ref: string): Node {
    Dict(map["$ref" := Text(ref)])
  }

  /** A reference by file and key path, or by file alone. */
  predicate Names(ref: string, file: string, keys: seq<string>) {
    '#' !in file && (ref == file + "#" + ToPointer(keys) || (ref == file && keys == []))
  }

  lemma {:induction false} NamedIncluded(ref: string, file: string, keys: seq<string>, files: Files, node: Node)
    requires Names(ref, file, keys) && file in files && files[file].Dict?
    requires Reach(files[file], KeyPlaces(keys)) == Some(node)
    ensures Included(Reference(ref), files) == Ok(node)
  {
    ExternalRefReaches(files, file, keys);
    WalkReaches(files[file], keys, node);
  }

  /**
   * A path item that is nothing but a reference is replaced by what it names, normalised; the paths are the entry's.
   */
  lemma {:induction false} PathInlined(
    root: map<string, Node>, files: Files, path: string, ref: string, file: string, keys: seq<string>, node: Node)
    requires Bundled(root, files).Some? && "paths" in root && root["paths"].Dict?
    requires path in root["paths"].fields && root["paths"].fields[path] == Reference(ref)
    requires Names(ref, file, keys) && file in files && files[file].Dict?
    requires Reach(files[file], KeyPlaces(keys)) == Some(node)
    ensures var out := Bundled(root, files).value;
            && out.Dict? && "paths" in out.fields && out.fields["paths"].Dict?
            && out.fields["paths"].fields.Keys == root["paths"].fields.Keys
            && out.fields["paths"].fields[path] == Normalized(node)
  {
    NamedIncluded(ref, file, keys, files, node);
    BundledParts(root, files);
  }

  /** A path item that is no mapping, or has other fields or none, stays in its place, normalised. */
  lemma {:induction false} PathKept(root: map<string, Node>, files: Files, path: string)
    requires Bundled(root, files).Some? && "paths" in root && root["paths"].Dict? && path in root["paths"].fields
    requires var item := root["paths"].fields[path]; !(item.Dict? && item.fields.Keys == {"$ref"})
    ensures var out := Bundled(root, files).value;
            && out.Dict? && "paths" in out.fields && out.fields["paths"].Dict?
            && path in out.fields["paths"].fields
            && out.fields["paths"].fields[path] == Normalized(root["paths"].fields[path])
  {
    BundledParts(root, files);
  }

  /** The schemas and the security schemes are inlined in the same way. */
  lemma {:induction false} SectionInlined(
    root: map<string, Node>, files: Files, name: string, ref: string, file: string, keys: seq<string>, node: Node)
    requires Bundled(root, files).Some? && "components" in root && root["components"].Dict?
    requires name == "schemas" || name == "securitySchemes"
    requires name in root["components"].fields && root["components"].fields[name] == Reference(ref)
    requires Names(ref, file, keys) && file in files && files[file].Dict?
    requires Reach(files[file], KeyPlaces(keys)) == Some(node)
    ensures var out := Bundled(root, files).value;
            && out.Dict? && "components" in out.fields && out.fields["components"].Dict?
            && out.fields["components"].fields.Keys == root["components"].fields.Keys
            && out.fields["components"].fields[name] == Normalized(node)
  {
    NamedIncluded(ref, file, keys, files, node);
    BundledParts(root, files);
  }

  /** Any other section, and one of the two that is more or less than a reference, stays in its place, normalised. */
  lemma {:induction false} SectionKept(root: map<string, Node>, files: Files, name: string)
    requires Bundled(root, files).Some? && "components" in root && root["components"].Dict?
    requires name in root["components"].fields && name != "$ref"
    requires var section := root["components"].fields[name];
             || (name != "schemas" && name != "securitySchemes")
             || !(section.Dict? && section.fields.Keys == {"$ref"})
    ensures var out := Bundled(root, files).value;
            && out.Dict? && "components" in out.fields && out.fields["components"].Dict?
            && name in out.fields["components"].fields
            && out.fields["components"].fields[name] == Normalized(root["components"].fields[name])
  {
    BundledParts(root, files);
  }

  /**
   * Fields other than paths and components stay as they are; without paths or components the document has empty ones.
   */
  lemma {:induction false} RestKept(root: map<string, Node>, files: Files)
    requires Bundled(root, files).Some?
    ensures var out := Bundled(root, files).value;
            && out.Dict? && out.fields.Keys == root.Keys + {"paths", "components"}
            && (forall name | name in root && name != "paths" && name != "components" :: out.fields[name] == root[name])
            && ("paths" !in root ==> out.fields["paths"] == Dict(map[]))
            && ("components" !in root ==> out.fields["components"] == Dict(map[]))
  {
    BundledParts(root, files);
  }

  /** A node that is nothing but a reference names a loaded mapping, and the whole of it or a node in it. */
  predicate Loads(node: Node, files: Files) {
    node.Dict? && node.fields.Keys == {"$ref"} ==>
      && node.fields["$ref"].Text?
      && var file, fragment := PathPart(node.fields["$ref"].text), Fragment(node.fields["$ref"].text);
         && file in files && files[file].Dict?
         && (fragment == "" || (fragment[0] == '/' && Walk(files[file], PointerKeys(fragment)).Ok?))
  }

  lemma LoadsIncluded(node: Node, files: Files)
    ensures Included(node, files).Ok? <==> Loads(node, files)
  {
    if OnlyRef(node) && node.fields["$ref"].Text? {
      var fragment := Fragment(node.fields["$ref"].text);
      assert fragment != "" ==> ("#" + fragment)[1..] == fragment;
    }
  }

  /** There is a document just when paths and components, if present, are mappings and each reference followed loads. */
  lemma {:induction false} BundlesWhenAllLoads(root: map<string, Node>, files: Files)
    ensures Bundled(root, files).Some? <==>
      && ("paths" in root ==>
            && root["paths"].Dict?
            && forall path | path in root["paths"].fields :: Loads(root["paths"].fields[path], files))
      && ("components" in root ==>
            && root["components"].Dict?
            && forall name | name in root["components"].fields && (name == "schemas" || name == "securitySchemes") ::
                 Loads(root["components"].fields[name], files))
  {
    BundledWhen(root, files);
    forall node ensures Included(node, files).Ok? <==> Loads(node, files) { LoadsIncluded(node, files); }
  }

  /** The script fails on a reference whose file is missing or no mapping, or whose keys lead nowhere in it. */
  lemma {:induction false} BrokenPathFails(
    root: map<string, Node>, files: Files, path: string, ref: string, file: string, keys: seq<string>)
    requires "paths" in root && root["paths"].Dict?
    requires path in root["paths"].fields && root["paths"].fields[path] == Reference(ref) && Names(ref, file, keys)
    requires file in files && files[file].Dict? ==> Reach(files[file], KeyPlaces(keys)).None?
    ensures Bundled(root, files).None?
  {
    PartitionAt(file, ToPointer(keys));
    PartitionNone(file);
    if file in files && files[file].Dict? {
      ExternalRefReaches(files, file, keys);
      if Walk(files[file], keys).Ok? { WalkReaches(files[file], keys, Walk(files[file], keys).value); }
    }
    assert Included(root["paths"].fields[path], files).Err?;
  }
}
