/** Documents as trees, and JSON Pointer resolution as the OpenAPI bundler does it (sections 3 and 4 of RFC 6901). */
module Pointer {
  import opened Basics

  datatype Node =
    | Dict(fields: map<string, Node>)
    | Items(items: seq<Node>)
    | Text(text: string)
    | Other(scalar: string)

  datatype Error = KeyError(key: string) | TypeError | ValueError(pointer: string) | FileError(path: string)
    | AttributeError

  /** str.replace of a two-character pattern: scan left to right, occurrences do not overlap. */
  function Replace(s: string, first: char, second: char, repl: char): string {
    if s == "" then ""
    else if |s| >= 2 && s[0] == first && s[1] == second then [repl] + Replace(s[2..], first, second, repl)
    else [s[0]] + Replace(s[1..], first, second, repl)
  }

  /** One reference token: ~1 first, then ~0. */
  function Unescape(part: string): string {
    Replace(Replace(part, '~', '1', '/'), '~', '0', '~')
  }

  /** str.split with the separator '/'. */
  function Split(s: string): (parts: seq<string>)
    ensures parts != []
  {
    if s == "" then [""]
    else if s[0] == '/' then [""] + Split(s[1..])
    else
      var rest := Split(s[1..]);
      [[s[0]] + rest[0]] + rest[1..]
  }

  function UnescapeAll(parts: seq<string>): seq<string> {
    if parts == [] then [] else [Unescape(parts[0])] + UnescapeAll(parts[1..])
  }

  /** Follow a key path through mappings. */
  function Walk(node: Node, keys: seq<string>): Result<Node, Error> {
    if keys == [] then Ok(node)
    else
      match node
      case Dict(fields) => if keys[0] in fields then Walk(fields[keys[0]], keys[1..]) else Err(KeyError(keys[0]))
      case _ => Err(TypeError)
  }

  function WithoutHash(pointer: string): string {
    if pointer != "" && pointer[0] == '#' then pointer[1..] else pointer
  }

  /** The keys a pointer that starts with a slash names. */
  function PointerKeys(pointer: string): seq<string>
    requires pointer != ""
  {
    UnescapeAll(Split(pointer[1..]))
  }

  function Resolved(document: Node, pointer: string): Result<Node, Error> {
    var path := WithoutHash(pointer);
    if pointer == "" || pointer == "#" then Ok(document)
    else if path == "" || path[0] != '/' then Err(ValueError(path))
    else Walk(document, PointerKeys(path))
  }

  method ResolvePointer(document: Node, pointer: string) returns (result: Result<Node, Error>)
    ensures result == Resolved(document, pointer)
  {
    if pointer == "" || pointer == "#" {
      return Ok(document);
    }
    var path := pointer;
    if path[0] == '#' {
      path := path[1..];
    }
    if path == "" || path[0] != '/' {
      return Err(ValueError(path));
    }
    var current := document;
    var parts := Split(path[1..]);
    var i := 0;
    while i < |parts|
      invariant i <= |parts|
      invariant Walk(document, PointerKeys(path)) == Walk(current, UnescapeAll(parts[i..]))
    {
      var part := Unescape(parts[i]);
      assert UnescapeAll(parts[i..]) == [part] + UnescapeAll(parts[i + 1..]) by {
        assert parts[i..][1..] == parts[i + 1..];
      }
      if !current.Dict? {
        return Err(TypeError);
      }
      if part !in current.fields {
        return Err(KeyError(part));
      }
      current := current.fields[part];
      i := i + 1;
    }
    assert parts[i..] == [];
    return Ok(current);
  }

  /** The escaping of section 3: ~ as ~0, / as ~1. */
  function Escape(key: string): string {
    if key == "" then ""
    else (if key[0] == '~' then "~0" else if key[0] == '/' then "~1" else [key[0]]) + Escape(key[1..])
  }

  function EscapeTilde(key: string): string {
    if key == "" then "" else (if key[0] == '~' then "~0" else [key[0]]) + EscapeTilde(key[1..])
  }

  function ToPointer(keys: seq<string>): string {
    if keys == [] then "" else "/" + Escape(keys[0]) + ToPointer(keys[1..])
  }

  lemma {:induction false} FirstPass(key: string)
    ensures Replace(Escape(key), '~', '1', '/') == EscapeTilde(key)
  {
    if key != "" {
      FirstPass(key[1..]);
      var rest := Escape(key[1..]);
      if key[0] == '~' {
        assert ("~0" + rest)[1..] == "0" + rest;
        assert ("0" + rest)[1..] == rest;
        assert Replace("0" + rest, '~', '1', '/') == "0" + Replace(rest, '~', '1', '/');
        assert Replace("~0" + rest, '~', '1', '/') == "~" + Replace("0" + rest, '~', '1', '/');
      } else if key[0] == '/' {
        assert ("~1" + rest)[2..] == rest;
      } else {
        assert ([key[0]] + rest)[1..] == rest;
      }
    }
  }

  lemma {:induction false} SecondPass(key: string)
    ensures Replace(EscapeTilde(key), '~', '0', '~') == key
  {
    if key != "" {
      SecondPass(key[1..]);
      var rest := EscapeTilde(key[1..]);
      if key[0] == '~' {
        assert ("~0" + rest)[2..] == rest;
      } else {
        assert ([key[0]] + rest)[1..] == rest;
      }
    }
  }

  /** The two passes, in the order of the code, undo the escaping of every key. */
  lemma UnescapeUndoesEscape(key: string)
    ensures Unescape(Escape(key)) == key
  {
    FirstPass(key);
    SecondPass(key);
  }

  lemma {:induction false} SplitEscaped(key: string, rest: string)
    ensures Split(Escape(key)) == [Escape(key)]
    ensures Split(Escape(key) + "/" + rest) == [Escape(key)] + Split(rest)
  {
    if key == "" {
      assert "" + "/" + rest == "/" + rest;
      assert ("/" + rest)[1..] == rest;
    } else {
      SplitEscaped(key[1..], rest);
      var head := if key[0] == '~' then "~0" else if key[0] == '/' then "~1" else [key[0]];
      SplitPrefix(head, Escape(key[1..]));
      SplitPrefix(head, Escape(key[1..]) + "/" + rest);
      assert Escape(key) + "/" + rest == head + (Escape(key[1..]) + "/" + rest);
      assert [head + Escape(key[1..])] == [Escape(key)];
    }
  }

  lemma SplitChar(c: char, s: string)
    requires c != '/'
    ensures Split([c] + s) == [[c] + Split(s)[0]] + Split(s)[1..]
  {
    assert ([c] + s)[1..] == s;
  }

  lemma {:induction false} SplitPrefix(head: string, s: string)
    requires 1 <= |head| <= 2 && head[0] != '/' && (|head| == 2 ==> head[1] != '/')
    ensures Split(head + s) == [head + Split(s)[0]] + Split(s)[1..]
  {
    if |head| == 1 {
      assert head == [head[0]];
      SplitChar(head[0], s);
    } else {
      var inner := [head[1]] + s;
      SplitChar(head[1], s);
      SplitChar(head[0], inner);
      assert head + s == [head[0]] + inner;
      assert Split(inner)[0] == [head[1]] + Split(s)[0];
      assert Split(inner)[1..] == Split(s)[1..];
      assert [head[0]] + ([head[1]] + Split(s)[0]) == head + Split(s)[0];
    }
  }

  function EscapeAll(keys: seq<string>): seq<string> {
    if keys == [] then [] else [Escape(keys[0])] + EscapeAll(keys[1..])
  }

  lemma {:induction false} UnescapeUndoesEscapeAll(keys: seq<string>)
    ensures UnescapeAll(EscapeAll(keys)) == keys
  {
    if keys != [] {
      UnescapeUndoesEscape(keys[0]);
      UnescapeUndoesEscapeAll(keys[1..]);
      assert EscapeAll(keys)[1..] == EscapeAll(keys[1..]);
    }
  }

  /** The escaped keys joined with slashes. */
  function Joined(keys: seq<string>): string
    requires keys != []
  {
    if |keys| == 1 then Escape(keys[0]) else Escape(keys[0]) + "/" + Joined(keys[1..])
  }

  lemma {:induction false} PointerIsJoined(keys: seq<string>)
    requires keys != []
    ensures ToPointer(keys) == "/" + Joined(keys)
  {
    if |keys| == 1 {
      assert ToPointer(keys[1..]) == "";
    } else {
      PointerIsJoined(keys[1..]);
    }
  }

  lemma {:induction false} SplitJoined(keys: seq<string>)
    requires keys != []
    ensures Split(Joined(keys)) == EscapeAll(keys)
  {
    if |keys| == 1 {
      SplitEscaped(keys[0], "");
      assert EscapeAll(keys[1..]) == [];
    } else {
      SplitJoined(keys[1..]);
      SplitEscaped(keys[0], Joined(keys[1..]));
    }
  }

  /** The pointer made from a key path, with or without its hash, resolves to exactly what the path reaches. */
  lemma {:induction false} PointerRoundTrip(document: Node, keys: seq<string>)
    ensures Resolved(document, ToPointer(keys)) == Walk(document, keys)
    ensures Resolved(document, "#" + ToPointer(keys)) == Walk(document, keys)
  {
    if keys != [] {
      var pointer := ToPointer(keys);
      PointerIsJoined(keys);
      SplitJoined(keys);
      UnescapeUndoesEscapeAll(keys);
      assert pointer[1..] == Joined(keys);
      assert ("#" + pointer)[1..] == pointer;
    }
  }

  /** A step into a tree: to what a mapping holds under a key, or to an item of a list. */
  datatype Place = Key(key: string) | Index(index: nat)

  function Reach(node: Node, position: seq<Place>): Option<Node> {
    if position == [] then Some(node)
    else
      match position[0]
      case Key(key) => if node.Dict? && key in node.fields then Reach(node.fields[key], position[1..]) else None
      case Index(i) => if node.Items? && i < |node.items| then Reach(node.items[i], position[1..]) else None
  }

  function KeyPlaces(keys: seq<string>): seq<Place> {
    if keys == [] then [] else [Key(keys[0])] + KeyPlaces(keys[1..])
  }

  /** A pointer resolves to a node just when its keys lead there through mappings. */
  lemma {:induction false} PointerReaches(document: Node, keys: seq<string>, node: Node)
    ensures Resolved(document, ToPointer(keys)) == Ok(node) <==> Reach(document, KeyPlaces(keys)) == Some(node)
  {
    PointerRoundTrip(document, keys);
    WalkReaches(document, keys, node);
  }

  lemma {:induction false} WalkReaches(document: Node, keys: seq<string>, node: Node)
    ensures Walk(document, keys) == Ok(node) <==> Reach(document, KeyPlaces(keys)) == Some(node)
    decreases keys
  {
    if keys != [] {
      assert KeyPlaces(keys)[1..] == KeyPlaces(keys[1..]);
      if document.Dict? && keys[0] in document.fields { WalkReaches(document.fields[keys[0]], keys[1..], node); }
    }
  }

  /** The document with a node written under nested keys, beside whatever other fields its mappings have. */
  function Written(document: Node, keys: seq<string>, node: Node): Node
    decreases keys
  {
    if keys == [] then node
    else
      var fields := if document.Dict? then document.fields else map[];
      var child := if keys[0] in fields then fields[keys[0]] else Dict(map[]);
      Dict(fields[keys[0] := Written(child, keys[1..], node)])
  }

  /** The pointer of the keys under which a node was written resolves to that node, whatever the keys contain. */
  lemma {:induction false} WrittenResolves(document: Node, keys: seq<string>, node: Node)
    ensures Resolved(Written(document, keys, node), ToPointer(keys)) == Ok(node)
    ensures Resolved(Written(document, keys, node), "#" + ToPointer(keys)) == Ok(node)
  {
    PointerRoundTrip(Written(document, keys, node), keys);
    WrittenWalks(document, keys, node);
  }

  lemma {:induction false} WrittenWalks(document: Node, keys: seq<string>, node: Node)
    ensures Walk(Written(document, keys, node), keys) == Ok(node)
    decreases keys
  {
    if keys != [] {
      var fields := if document.Dict? then document.fields else map[];
      WrittenWalks(if keys[0] in fields then fields[keys[0]] else Dict(map[]), keys[1..], node);
    }
  }

  /** A pointer that, without its hash, is neither empty nor begins with a slash is refused; no other is. */
  lemma {:induction false} PointerRefused(document: Node, pointer: string)
    ensures (exists path :: Resolved(document, pointer) == Err(ValueError(path))) <==>
            pointer != "" && pointer != "#" && (pointer[0] != '#' ==> pointer[0] != '/') && !("#/" <= pointer)
  {
    var path := WithoutHash(pointer);
    if pointer != "" && pointer != "#" {
      if pointer[0] == '#' { assert path[0] == pointer[1]; }
      if path[0] == '/' { WalkNeverRefuses(document, PointerKeys(path)); }
    }
  }

  lemma {:induction false} WalkNeverRefuses(document: Node, keys: seq<string>)
    ensures Walk(document, keys).Err? ==> !Walk(document, keys).error.ValueError?
    decreases keys
  {
    if keys != [] && document.Dict? && keys[0] in document.fields {
      WalkNeverRefuses(document.fields[keys[0]], keys[1..]);
    }
  }
}
