/** Embedding a DSL schema in a CRD schema: hoisting the array's items, relocating its definitions, and rebasing every
    JSON Schema reference so that it still denotes the same subschema. References are JSON pointers in URI fragments
    (sections 4 and 6 of RFC 6901), without escape sequences. */
module SchemaRefs {
  import opened Options
  import opened Text
  import opened Decimal

  datatype Json =
    | JNull
    | JBool(b: bool)
    | JNumber(n: real)
    | JString(s: string)
    | JArray(items: seq<Json>)
    | JObject(fields: map<string, Json>)

  const REF := "$ref"
  const ITEMS := "items"
  const DEFINITIONS := "definitions"
  const PROPERTIES := "properties"
  const ITEMS_POINTER := "#/items"

  // ---- Rebasing ---------------------------------------------------------------------------

  function TrimPrefix(s: string, prefix: string): string {
    if prefix <= s then s[|prefix|..] else s
  }

  function RemapRef(ref: string): string { "#" + TrimPrefix(ref, ITEMS_POINTER) }

  /** Where a value stands: under a key of a map, or in a list. */
  datatype Place = Under(key: string) | InList

  /** What rebasing makes of a value at its place: maps are entered, lists directly under a key are searched for maps,
      and a string under $ref is remapped. Lists inside lists are not entered. */
  function Rebase(place: Place, v: Json): Json
    decreases v, 0
  {
    match v
    case JObject(fields) => JObject(map k | k in fields :: Rebase(Under(k), fields[k]))
    case JArray(items) =>
      if place.Under? then JArray(seq(|items|, i requires 0 <= i < |items| => Rebase(InList, items[i]))) else v
    case JString(s) => if place == Under(REF) then JString(RemapRef(s)) else v
    case _ => v
  }

  /** The document itself is a map under no key. */
  function RebaseDocument(v: Json): Json { Rebase(InList, v) }

  /** Where the rewrite meets a null it panics: under a key, or in a list directly under a key. */
  predicate NullFree(place: Place, v: Json)
    decreases v
  {
    match v
    case JNull => false
    case JObject(fields) => forall k :: k in fields ==> NullFree(Under(k), fields[k])
    case JArray(items) => place.Under? ==> forall i :: 0 <= i < |items| ==> NullFree(InList, items[i])
    case _ => true
  }

  /** rebaseRefs: a loop over the keys of a map that rewrites the values one by one. */
  method RebaseRefs(schema: Json) returns (out: Json)
    requires schema.JObject? && NullFree(InList, schema)
    ensures out == RebaseDocument(schema)
    decreases schema, 0
  {
    var fields, keys := schema.fields, schema.fields.Keys;
    while keys != {}
      invariant keys <= schema.fields.Keys && fields.Keys == schema.fields.Keys
      invariant forall k :: k in keys ==> fields[k] == schema.fields[k]
      invariant forall k :: k in fields && k !in keys ==> fields[k] == Rebase(Under(k), schema.fields[k])
    {
      var k :| k in keys;
      keys := keys - {k};
      var v := RebaseValue(k, schema.fields[k]);
      fields := fields[k := v];
    }
    assert RebaseDocument(schema).fields == fields;
    out := JObject(fields);
  }

  /** The body of the loop: what becomes of one value. */
  method RebaseValue(k: string, v: Json) returns (r: Json)
    requires NullFree(Under(k), v)
    ensures r == Rebase(Under(k), v)
    decreases v, 1
  {
    r := v;
    if k == REF && v.JString? {
      r := JString(RemapRef(v.s));
    } else if v.JObject? {
      r := RebaseRefs(v);
      RebaseObjectAnywhere(Under(k), v);
    } else if v.JArray? {
      var items := v.items;
      for i := 0 to |v.items|
        invariant |items| == |v.items|
        invariant forall j :: 0 <= j < i ==> items[j] == Rebase(InList, v.items[j])
        invariant forall j :: i <= j < |items| ==> items[j] == v.items[j]
      {
        if v.items[i].JObject? {
          var m := RebaseRefs(v.items[i]);
          items := items[i := m];
        }
      }
      r := JArray(items);
    }
  }

  lemma RebaseObjectAnywhere(place: Place, v: Json)
    requires v.JObject?
    ensures Rebase(place, v) == RebaseDocument(v)
  {
  }

  // ---- Pointers ---------------------------------------------------------------------------

  /** The fragment for a path: a hash, then every token after a slash. */
  function PointerText(path: seq<string>): string {
    if path == [] then "#" else "#/" + Join(path, '/')
  }

  /** The path a fragment denotes; None when it is not a pointer. */
  function ParsePointer(ref: string): Option<seq<string>> {
    if ref == "" || ref[0] != '#' then None
    else if |ref| == 1 then Some([])
    else if ref[1] != '/' then None
    else Some(Split(ref[2..], '/'))
  }

  predicate IsToken(t: string) { '/' !in t }

  /** Texts and paths of references correspond: a fragment denotes a path exactly when it is the text of that path. */
  lemma PointerTextIff(ref: string, path: seq<string>)
    requires forall i :: 0 <= i < |path| ==> IsToken(path[i])
    ensures ParsePointer(ref) == Some(path) <==> ref == PointerText(path)
  {
    if path != [] {
      JoinSplit(path, '/');
      assert PointerText(path)[2..] == Join(path, '/');
    }
    if ParsePointer(ref) == Some(path) && path != [] {
      SplitJoin(ref[2..], '/');
      assert ref == "#/" + ref[2..];
    }
  }

  lemma ParsedTokens(ref: string, i: nat)
    requires ParsePointer(ref).Some? && i < |ParsePointer(ref).value|
    ensures IsToken(ParsePointer(ref).value[i])
  {
    SplitJoin(ref[2..], '/');
  }

  /** The first token of a split text, and the rest. */
  lemma {:induction false} SplitFirst(t: string, s: string)
    requires IsToken(t)
    ensures Split(t + "/" + s, '/') == [t] + Split(s, '/')
    ensures Split(t, '/') == [t]
  {
    if t == "" {
      assert t + "/" + s == "/" + s;
      assert ("/" + s)[1..] == s;
    } else {
      assert forall c :: c in t[1..] ==> c in t;
      SplitFirst(t[1..], s);
      var whole := t + "/" + s;
      assert whole[1..] == t[1..] + "/" + s;
      assert t[0] in t && whole[0] == t[0];
      assert [t[0]] + t[1..] == t;
    }
  }

  /** A text whose first piece is t is t itself or starts with t and a separator. */
  lemma {:induction false} FirstPiece(s: string, t: string)
    requires IsToken(t) && Split(s, '/')[0] == t
    ensures s == t || t + "/" <= s
  {
    if s != "" {
      if s[0] == '/' {
        assert t == "";
      } else {
        var rest := Split(s[1..], '/');
        assert t == [s[0]] + rest[0];
        assert t[1..] == rest[0];
        assert forall c :: c in t[1..] ==> c in t;
        FirstPiece(s[1..], t[1..]);
        assert s == [s[0]] + s[1..];
        if s[1..] != t[1..] {
          assert t + "/" == [s[0]] + (t[1..] + "/");
        }
      }
    }
  }

  /** Remapping a pointer gives a pointer exactly when its first token is `items`, and then drops that token. */
  lemma RemapIsPointerIff(ref: string)
    requires ParsePointer(ref).Some?
    ensures var path := ParsePointer(ref).value;
            ParsePointer(RemapRef(ref)) == if path != [] && path[0] == ITEMS then Some(path[1..]) else None
  {
    var path := ParsePointer(ref).value;
    if path != [] && path[0] == ITEMS {
      RemapItems(ref, ref[2..]);
    } else {
      NotItems(ref);
    }
  }

  /** For instance, the reference to a definition of the document itself, "#/definitions/A". */
  lemma RootReferenceIsBroken()
    ensures var ref := PointerText([DEFINITIONS, "A"]);
            && ParsePointer(ref) == Some([DEFINITIONS, "A"])
            && RemapRef(ref) == "#" + ref && ParsePointer("#" + ref) == None
  {
    hide Split, Join;
    var path := [DEFINITIONS, "A"];
    assert DEFINITIONS[0] != ITEMS[0];
    PointerTextIff(PointerText(path), path);
    RemapIsPointerIff(PointerText(path));
    StartsWithToken(path);
  }

  lemma StartsWithToken(path: seq<string>)
    requires path != [] && path[0] != "" && path[0][0] != ITEMS[0]
    ensures !(ITEMS_POINTER <= PointerText(path))
  {
    assert Join(path, '/')[0] == path[0][0];
    assert PointerText(path)[2] == path[0][0];
    assert ITEMS_POINTER[2] == ITEMS[0];
  }

  lemma RemapItems(ref: string, text: string)
    requires ref == "#/" + text && Split(text, '/')[0] == ITEMS
    ensures ParsePointer(RemapRef(ref)) == Some(Split(text, '/')[1..])
  {
    FirstPiece(text, ITEMS);
    if text == ITEMS {
      SplitFirst(ITEMS, "");
    } else {
      var s := text[|ITEMS| + 1..];
      assert text == ITEMS + "/" + s;
      RemapLonger(s);
    }
  }

  lemma RemapLonger(s: string)
    ensures ParsePointer(RemapRef("#/" + (ITEMS + "/" + s))) == Some(Split(s, '/'))
    ensures Split(ITEMS + "/" + s, '/') == [ITEMS] + Split(s, '/')
  {
    SplitFirst(ITEMS, s);
    var ref := "#/" + (ITEMS + "/" + s);
    assert ref == ITEMS_POINTER + ("/" + s);
    assert "#" + ("/" + s) == "#/" + s;
    assert ("#/" + s)[2..] == s;
  }

  /** A pointer into anything else is broken by the remapping. */
  lemma NotItems(ref: string)
    requires ParsePointer(ref).Some?
    requires ParsePointer(ref).value == [] || ParsePointer(ref).value[0] != ITEMS
    ensures ParsePointer(RemapRef(ref)) == None
  {
    if ITEMS_POINTER <= ref {
      var s := ref[|ITEMS_POINTER|..];
      assert ref[2..] == ITEMS + s;
      ItemsFirstIff(s);
      assert RemapRef(ref) == "#" + s;
    } else {
      assert RemapRef(ref) == "#" + ref;
    }
  }

  /** The first token of a text that starts with `items` is `items` only at a token boundary. */
  lemma ItemsFirstIff(s: string)
    ensures Split(ITEMS + s, '/')[0] == ITEMS <==> s == "" || s[0] == '/'
  {
    assert s != "" ==> (ITEMS + s)[|ITEMS|] == s[0];
    if s == "" {
      assert ITEMS + s == ITEMS;
      SplitFirst(ITEMS, "");
    } else if s[0] == '/' {
      assert ITEMS + s == ITEMS + "/" + s[1..];
      SplitFirst(ITEMS, s[1..]);
    } else if Split(ITEMS + s, '/')[0] == ITEMS {
      FirstPiece(ITEMS + s, ITEMS);
      assert false;
    }
  }

  // ---- Resolving --------------------------------------------------------------------------

  /** A token that denotes an array element: digits without a leading zero. */
  function ArrayIndex(token: string): Option<nat> {
    if token != "" && AllDigits(token) && (token[0] != '0' || |token| == 1) then Some(DigitsValue(token)) else None
  }

  /** The child a token leads to, and where it stands. */
  function Child(v: Json, token: string): Option<(Place, Json)> {
    match v
    case JObject(fields) => if token in fields then Some((Under(token), fields[token])) else None
    case JArray(items) =>
      var i := ArrayIndex(token);
      if i.Some? && i.value < |items| then Some((InList, items[i.value])) else None
    case _ => None
  }

  /** Following a path through map keys and array elements; the place of the result is that of its last step. */
  function Resolve(place: Place, v: Json, path: seq<string>): Option<(Place, Json)>
    decreases |path|
  {
    if path == [] then Some((place, v))
    else match Child(v, path[0])
      case Some(c) => Resolve(c.0, c.1, path[1..])
      case None => None
  }

  function ResolveIn(root: Json, path: seq<string>): Option<(Place, Json)> { Resolve(InList, root, path) }

  function RebaseAt(r: Option<(Place, Json)>): Option<(Place, Json)> {
    match r
    case Some(c) => Some((c.0, Rebase(c.0, c.1)))
    case None => None
  }

  /** Following the path never leaves a list that stands in a list: the rewrite does not enter those. */
  predicate FlatPath(place: Place, v: Json, path: seq<string>)
    decreases |path|
  {
    path == [] ||
    (!(place.InList? && v.JArray?) &&
     match Child(v, path[0])
     case Some(c) => FlatPath(c.0, c.1, path[1..])
     case None => true)
  }

  lemma ChildRebased(place: Place, v: Json, token: string)
    requires !(place.InList? && v.JArray?)
    ensures Child(Rebase(place, v), token) == RebaseAt(Child(v, token))
  {
  }

  /** For every document and every path: what the path leads to in the rebased schema is the rebased form of what it
      leads to in the original, or, behind a list in a list, that very thing. So the shape of the tree is kept. */
  lemma {:induction false} ResolveRebased(place: Place, v: Json, path: seq<string>)
    ensures Resolve(place, Rebase(place, v), path)
         == if FlatPath(place, v, path) then RebaseAt(Resolve(place, v, path)) else Resolve(place, v, path)
    decreases |path|
  {
    if path != [] && !(place.InList? && v.JArray?) {
      ChildRebased(place, v, path[0]);
      if Child(v, path[0]).Some? {
        var c := Child(v, path[0]).value;
        ResolveRebased(c.0, c.1, path[1..]);
      }
    }
  }

  /** A reference is remapped exactly when no list in a list stands on the way to it. */
  lemma RefRemappedIff(root: Json, path: seq<string>, ref: string)
    requires ResolveIn(root, path) == Some((Under(REF), JString(ref)))
    ensures ResolveIn(RebaseDocument(root), path) == Some((Under(REF), JString(RemapRef(ref))))
            <==> FlatPath(InList, root, path)
  {
    ResolveRebased(InList, root, path);
    RemapChanges(ref);
  }

  lemma RemapChanges(ref: string)
    ensures RemapRef(ref) != ref
  {
    assert |RemapRef(ref)| == if ITEMS_POINTER <= ref then |ref| - |ITEMS_POINTER| + 1 else |ref| + 1;
  }

  /** A reference in a list in a list. */
  const NESTED_REF := JObject(map["anyOf" := JArray([JArray([JObject(map[REF := JString("#/items/definitions/A")])])])])

  lemma NestedRefStays()
    ensures RebaseDocument(NESTED_REF) == NESTED_REF
    ensures ResolveIn(NESTED_REF, ["anyOf", "0", "0", REF]) == Some((Under(REF), JString("#/items/definitions/A")))
  {
    var ref := JString("#/items/definitions/A");
    var holder := JObject(map[REF := ref]);
    var inner := JArray([holder]);
    var outer := JArray([inner]);
    assert Rebase(Under("anyOf"), outer).items == [inner];
    assert RebaseDocument(NESTED_REF).fields == NESTED_REF.fields;
    assert ArrayIndex("0") == Some(0) by { assert "0"[..0] == ""; }
    assert Resolve(Under(REF), ref, []) == Some((Under(REF), ref));
    assert Resolve(InList, holder, [REF]) == Some((Under(REF), ref)) by { assert [REF][1..] == []; }
    assert Resolve(InList, inner, ["0", REF]) == Some((Under(REF), ref)) by { assert ["0", REF][1..] == [REF]; }
    assert Resolve(Under("anyOf"), outer, ["0", "0", REF]) == Some((Under(REF), ref)) by {
      assert ["0", "0", REF][1..] == ["0", REF];
    }
    assert ["anyOf", "0", "0", REF][1..] == ["0", "0", REF];
  }

  // ---- Hoisting ---------------------------------------------------------------------------

  /** Hoisting the items of an array schema and rebasing keeps what every reference denotes: a reference whose first
      token is `items`, resolved in the original document, and its remapped form, resolved in the rebased items, give
      the same subschema up to rebasing, or both nothing. */
  lemma HoistedRefsKeepMeaning(document: Json, ref: string)
    requires HasItems(document)
    requires ParsePointer(ref).Some? && ParsePointer(ref).value != [] && ParsePointer(ref).value[0] == ITEMS
    ensures var hoisted, path := RebaseDocument(document.fields[ITEMS]), ParsePointer(ref).value;
            var original := ResolveIn(document, path);
            && RemapRef(ref) == PointerText(path[1..])
            && (path[1..] == [] ==> original == Some((Under(ITEMS), document.fields[ITEMS])))
            && (path[1..] != [] ==>
                  ResolveIn(hoisted, path[1..])
                      == if FlatPath(InList, document, path) then RebaseAt(original) else original)
  {
    var path, items := ParsePointer(ref).value, document.fields[ITEMS];
    RemappedText(ref);
    assert Child(document, ITEMS) == Some((Under(ITEMS), items));
    assert Resolve(InList, document, path) == Resolve(Under(ITEMS), items, path[1..]);
    assert FlatPath(InList, document, path) == FlatPath(Under(ITEMS), items, path[1..]);
    if path[1..] != [] {
      PlaceForgotten(Under(ITEMS), InList, items, path[1..]);
    }
    ResolveRebased(InList, items, path[1..]);
  }

  lemma RemappedText(ref: string)
    requires ParsePointer(ref).Some? && ParsePointer(ref).value != [] && ParsePointer(ref).value[0] == ITEMS
    ensures RemapRef(ref) == PointerText(ParsePointer(ref).value[1..])
  {
    var rest := ParsePointer(ref).value[1..];
    RemapIsPointerIff(ref);
    forall i | 0 <= i < |rest| ensures IsToken(rest[i]) {
      ParsedTokens(ref, i + 1);
    }
    PointerTextIff(RemapRef(ref), rest);
  }

  /** Past the first step the starting place of a map does not matter. */
  lemma PlaceForgotten(p: Place, q: Place, v: Json, path: seq<string>)
    requires path != []
    ensures Resolve(p, v, path) == Resolve(q, v, path)
    ensures v.JObject? ==> FlatPath(p, v, path) == FlatPath(q, v, path)
  {
  }

  // ---- Nothing else changes ---------------------------------------------------------------

  /** The document with every string under $ref blanked, in nested lists too. */
  function Erase(place: Place, v: Json): Json
    decreases v
  {
    match v
    case JObject(fields) => JObject(map k | k in fields :: Erase(Under(k), fields[k]))
    case JArray(items) => JArray(seq(|items|, i requires 0 <= i < |items| => Erase(InList, items[i])))
    case JString(s) => if place == Under(REF) then JString("") else v
    case _ => v
  }

  /** Up to the strings under $ref, rebasing is the identity, for every document. */
  lemma {:induction false} OnlyRefsChange(place: Place, v: Json)
    ensures Erase(place, Rebase(place, v)) == Erase(place, v)
    decreases v
  {
    match v {
      case JObject(fields) =>
        forall k | k in fields ensures Erase(Under(k), Rebase(Under(k), fields[k])) == Erase(Under(k), fields[k]) {
          OnlyRefsChange(Under(k), fields[k]);
        }
        var r := Rebase(place, v);
        assert Erase(place, r).fields == Erase(place, v).fields;
      case JArray(items) =>
        if place.Under? {
          forall i | 0 <= i < |items| ensures Erase(InList, Rebase(InList, items[i])) == Erase(InList, items[i]) {
            OnlyRefsChange(InList, items[i]);
          }
          assert Erase(place, Rebase(place, v)).items == Erase(place, v).items;
        }
      case _ =>
    }
  }

  // ---- Relocating the definitions ---------------------------------------------------------

  /** unicode.IsSpace, which decides what is trimmed. */
  predicate IsSpace(c: char) {
    || c in {' ', '\t', '\n', '\r', '\U{0b}', '\U{0c}', '\U{85}', '\U{a0}'}
    || c in {'\U{1680}', '\U{2028}', '\U{2029}', '\U{202f}', '\U{205f}', '\U{3000}'}
    || '\U{2000}' <= c <= '\U{200a}'
  }

  predicate Blank(s: string) { forall c :: c in s ==> IsSpace(c) }

  function DropBlank(parts: seq<string>): seq<string> {
    if parts == [] then []
    else DropBlank(parts[..|parts| - 1]) + if Blank(parts[|parts| - 1]) then [] else [parts[|parts| - 1]]
  }

  /** pathComponents: the parts of a dotted path that are not blank. */
  method PathComponents(path: string) returns (res: seq<string>)
    ensures res == DropBlank(Split(path, '.'))
  {
    res := [];
    var parts := Split(path, '.');
    for i := 0 to |parts|
      invariant res == DropBlank(parts[..i])
    {
      assert parts[..i + 1][..i] == parts[..i];
      if !Blank(parts[i]) {
        res := res + [parts[i]];
      }
    }
    assert parts[..|parts|] == parts;
  }

  /** Setting a property down a path of properties; None where the generator panics on a missing map. */
  function SetProperty(schema: Json, path: seq<string>, value: Json): Option<Json>
    requires path != []
    decreases |path|
  {
    if !schema.JObject? || PROPERTIES !in schema.fields || !schema.fields[PROPERTIES].JObject? then None
    else
      var properties := schema.fields[PROPERTIES].fields;
      if |path| == 1 then Some(JObject(schema.fields[PROPERTIES := JObject(properties[path[0] := value])]))
      else if path[0] !in properties then None
      else match SetProperty(properties[path[0]], path[1..], value)
        case Some(child) => Some(JObject(schema.fields[PROPERTIES := JObject(properties[path[0] := child])]))
        case None => None
  }

  predicate HasItems(v: Json) { v.JObject? && ITEMS in v.fields && v.fields[ITEMS].JObject? }

  predicate IsArraySchema(dsl: Json) {
    dsl.JObject? && "type" in dsl.fields && dsl.fields["type"] == JString("array")
  }

  /** The definitions of a schema, and the schema without them. */
  function DefinitionsOf(v: Json): Option<Json> {
    if v.JObject? && DEFINITIONS in v.fields then Some(v.fields[DEFINITIONS]) else None
  }

  function WithoutDefinitions(v: Json): Json
    requires v.JObject?
  {
    JObject(v.fields - {DEFINITIONS})
  }

  function WithDefinitions(crd: Json, definitions: Option<Json>): Json
    requires crd.JObject?
  {
    match definitions
    case Some(d) => JObject(crd.fields[DEFINITIONS := d])
    case None => crd
  }

  /** generate on parsed documents: hoist unless an array is wanted, rebase, move the definitions to the root of the CRD
      schema, and store the rest under the path. None where the generator panics. */
  function Generate(dsl: Json, isArray: bool, crd: Json, path: seq<string>): Option<Json> {
    if !dsl.JObject? || !crd.JObject? || DefinitionsOf(crd).Some? || path == [] then None
    else if !isArray && IsArraySchema(dsl) && !HasItems(dsl) then None
    else if !NullFree(InList, if !isArray && IsArraySchema(dsl) then dsl.fields[ITEMS] else dsl) then None
    else
      var schema := RebaseDocument(if !isArray && IsArraySchema(dsl) then dsl.fields[ITEMS] else dsl);
      if isArray then
        if !HasItems(schema) then None
        else
          var rest := JObject(schema.fields[ITEMS := WithoutDefinitions(schema.fields[ITEMS])]);
          SetProperty(WithDefinitions(crd, DefinitionsOf(schema.fields[ITEMS])), path, rest)
      else SetProperty(WithDefinitions(crd, DefinitionsOf(schema)), path, WithoutDefinitions(schema))
  }

  /** Storing a property leaves every other key of the root alone, and every other property of it. */
  lemma SetPropertyKeepsRoot(schema: Json, path: seq<string>, value: Json)
    requires path != [] && SetProperty(schema, path, value).Some?
    ensures var r := SetProperty(schema, path, value).value;
            && r.JObject? && schema.JObject?
            && (forall k :: k != PROPERTIES ==> Child(r, k) == Child(schema, k))
            && Child(r, PROPERTIES).Some? && Child(schema, PROPERTIES).Some?
            && forall k :: k != path[0]
                ==> Child(Child(r, PROPERTIES).value.1, k) == Child(Child(schema, PROPERTIES).value.1, k)
  {
  }

  /** The point of it all: in the generated CRD schema, whether the array was kept or its items hoisted, every remapped
      reference into the definitions of the items denotes the rebased subschema that the original reference denoted, or
      both denote nothing. */
  lemma GeneratedRefsKeepMeaning(dsl: Json, isArray: bool, crd: Json, path: seq<string>, ref: string, rest: seq<string>)
    requires (isArray || IsArraySchema(dsl)) && HasItems(dsl) && Generate(dsl, isArray, crd, path).Some?
    requires ParsePointer(ref) == Some([ITEMS, DEFINITIONS] + rest)
    ensures RemapRef(ref) == PointerText([DEFINITIONS] + rest)
    ensures var original := ResolveIn(dsl, [ITEMS, DEFINITIONS] + rest);
            ResolveIn(Generate(dsl, isArray, crd, path).value, [DEFINITIONS] + rest)
            == if FlatPath(InList, dsl, [ITEMS, DEFINITIONS] + rest) then RebaseAt(original) else original
  {
    RemappedText(ref);
    assert ([ITEMS, DEFINITIONS] + rest)[1..] == [DEFINITIONS] + rest;
    TwoSteps(dsl, rest);
    DefinitionsRelocated(dsl, isArray, crd, path);
    OneStep(Generate(dsl, isArray, crd, path).value, rest);
    if DEFINITIONS in dsl.fields[ITEMS].fields {
      ResolveRebased(Under(DEFINITIONS), dsl.fields[ITEMS].fields[DEFINITIONS], rest);
    }
  }

  /** A reference to anything else in the items loses its meaning. The items themselves become the root of the CRD
      schema; everything past them is looked up in the CRD schema with the stored property, as if there were no
      definitions, and in the CRD schema as it was unless the path leads through that property. */
  lemma OtherRefsPointIntoCrd(dsl: Json, isArray: bool, crd: Json, path: seq<string>, ref: string, rest: seq<string>)
    requires Generate(dsl, isArray, crd, path).Some?
    requires ParsePointer(ref) == Some([ITEMS] + rest) && (rest != [] ==> rest[0] != DEFINITIONS)
    ensures RemapRef(ref) == PointerText(rest)
    ensures var result, stored :=
            Generate(dsl, isArray, crd, path).value, SetProperty(crd, path, StoredParts(dsl, isArray, crd, path).0);
            && stored.Some?
            && (rest == [] ==> ref == ITEMS_POINTER && ResolveIn(result, rest) == Some((InList, result)))
            && (rest != [] ==> ResolveIn(result, rest) == ResolveIn(stored.value, rest))
            && (rest != [] && (rest[0] == PROPERTIES ==> |rest| > 1 && rest[1] != path[0])
                ==> ResolveIn(result, rest) == ResolveIn(crd, rest))
  {
    RemappedText(ref);
    assert ([ITEMS] + rest)[1..] == rest;
    var (value, definitions) := StoredParts(dsl, isArray, crd, path);
    var result := Generate(dsl, isArray, crd, path).value;
    DefinitionsApart(crd, definitions, path, value);
    if rest == [] {
      assert IsToken(ITEMS) && PointerText([ITEMS]) == ITEMS_POINTER;
      PointerTextIff(ref, [ITEMS]);
    } else {
      var stored := SetProperty(crd, path, value).value;
      SetPropertyKeepsRoot(crd, path, value);
      assert Child(result, rest[0]) == Child(stored, rest[0]);
      if rest[0] == PROPERTIES && |rest| > 1 {
        SecondStep(stored, rest);
        SecondStep(crd, rest);
      }
    }
  }

  /** Moving definitions to the root and storing a property do not meet. */
  lemma DefinitionsApart(crd: Json, definitions: Option<Json>, path: seq<string>, value: Json)
    requires crd.JObject? && path != [] && SetProperty(WithDefinitions(crd, definitions), path, value).Some?
    ensures SetProperty(crd, path, value).Some?
    ensures var with, without :=
            SetProperty(WithDefinitions(crd, definitions), path, value).value, SetProperty(crd, path, value).value;
            forall k :: k != DEFINITIONS ==> Child(with, k) == Child(without, k)
  {
    assert DEFINITIONS != PROPERTIES by { assert DEFINITIONS[0] != PROPERTIES[0]; }
  }

  /** An array schema whose items have a property, and a CRD schema to embed it in. */
  const ITEM_SCHEMA :=
    JObject(map["type" := JString("array"), ITEMS := JObject(map[PROPERTIES := JObject(map["x" := JObject(map[])])])])
  const CRD_SCHEMA := JObject(map[PROPERTIES := JObject(map["spec" := JObject(map[])])])

  lemma ItemSchemaGenerates()
    ensures Generate(ITEM_SCHEMA, true, CRD_SCHEMA, ["spec"]).Some?
  {
    var property := JObject(map[]);
    var properties := JObject(map["x" := property]);
    var item := JObject(map[PROPERTIES := properties]);
    assert NullFree(Under(PROPERTIES), properties) by { assert NullFree(Under("x"), property); }
    assert NullFree(Under(ITEMS), item);
    assert ITEM_SCHEMA.fields == map["type" := JString("array"), ITEMS := item];
    assert NullFree(InList, ITEM_SCHEMA);
    FieldRebased(InList, ITEM_SCHEMA, ITEMS);
    FieldRebased(Under(ITEMS), item, DEFINITIONS);
    assert PROPERTIES[0] != DEFINITIONS[0];
    assert HasItems(RebaseDocument(ITEM_SCHEMA));
    assert DefinitionsOf(CRD_SCHEMA) == None;
    assert DefinitionsOf(RebaseDocument(ITEM_SCHEMA).fields[ITEMS]) == None;
  }

  lemma ItemPropertyResolves()
    ensures ResolveIn(ITEM_SCHEMA, [ITEMS, PROPERTIES, "x"]) == Some((Under("x"), JObject(map[])))
  {
    var path, rest := [ITEMS, PROPERTIES, "x"], [PROPERTIES, "x"];
    assert path[1..] == rest && rest[1..] == ["x"] && ["x"][1..] == [];
    var properties := JObject(map["x" := JObject(map[])]);
    assert Resolve(Under(PROPERTIES), properties, ["x"]) == Some((Under("x"), JObject(map[])));
    assert Resolve(Under(ITEMS), JObject(map[PROPERTIES := properties]), rest) == Some((Under("x"), JObject(map[])));
  }

  /** The reference to that property is remapped to one that denotes nothing. */
  lemma ItemReferenceIsLost()
    ensures var path := [ITEMS, PROPERTIES, "x"];
            && RemapRef(PointerText(path)) == PointerText(path[1..])
            && ResolveIn(ITEM_SCHEMA, path) == Some((Under("x"), JObject(map[])))
            && Generate(ITEM_SCHEMA, true, CRD_SCHEMA, ["spec"]).Some?
            && ResolveIn(Generate(ITEM_SCHEMA, true, CRD_SCHEMA, ["spec"]).value, path[1..]) == None
  {
    hide Generate, PointerText, RemapRef, Resolve;
    var path, rest := [ITEMS, PROPERTIES, "x"], [PROPERTIES, "x"];
    assert path[1..] == rest && [ITEMS] + rest == path;
    assert PROPERTIES[0] != DEFINITIONS[0] && "x"[0] != "spec"[0];
    ItemPropertyResolves();
    ItemSchemaGenerates();
    PointerTextIff(PointerText(path), path);
    OtherRefsPointIntoCrd(ITEM_SCHEMA, true, CRD_SCHEMA, ["spec"], PointerText(path), rest);
    SecondStep(CRD_SCHEMA, rest);
  }

  lemma SecondStep(root: Json, rest: seq<string>)
    requires |rest| > 1 && Child(root, rest[0]).Some?
    ensures ResolveIn(root, rest)
         == match Child(Child(root, rest[0]).value.1, rest[1])
            case Some(c) => Resolve(c.0, c.1, rest[2..])
            case None => None
  {
    assert rest[1..][1..] == rest[2..];
    assert ResolveIn(root, rest) == Resolve(Child(root, rest[0]).value.0, Child(root, rest[0]).value.1, rest[1..]);
  }

  /** What is stored under the path, and the definitions moved to the root. */
  function StoredParts(dsl: Json, isArray: bool, crd: Json, path: seq<string>): (r: (Json, Option<Json>))
    requires Generate(dsl, isArray, crd, path).Some?
    ensures Generate(dsl, isArray, crd, path) == SetProperty(WithDefinitions(crd, r.1), path, r.0)
  {
    var schema := RebaseDocument(if !isArray && IsArraySchema(dsl) then dsl.fields[ITEMS] else dsl);
    if isArray then
      (JObject(schema.fields[ITEMS := WithoutDefinitions(schema.fields[ITEMS])]), DefinitionsOf(schema.fields[ITEMS]))
    else (WithoutDefinitions(schema), DefinitionsOf(schema))
  }

  lemma OneStep(root: Json, rest: seq<string>)
    ensures ResolveIn(root, [DEFINITIONS] + rest)
         == match Child(root, DEFINITIONS) { case Some(c) => Resolve(c.0, c.1, rest) case None => None }
  {
    assert ([DEFINITIONS] + rest)[1..] == rest;
  }

  lemma TwoSteps(dsl: Json, rest: seq<string>)
    requires HasItems(dsl)
    ensures var items, path := dsl.fields[ITEMS], [ITEMS, DEFINITIONS] + rest;
            if DEFINITIONS in items.fields then
              && ResolveIn(dsl, path) == Resolve(Under(DEFINITIONS), items.fields[DEFINITIONS], rest)
              && FlatPath(InList, dsl, path) == FlatPath(Under(DEFINITIONS), items.fields[DEFINITIONS], rest)
            else ResolveIn(dsl, path) == None
  {
    var path, items := [ITEMS, DEFINITIONS] + rest, dsl.fields[ITEMS];
    assert path[1..] == [DEFINITIONS] + rest && path[1..][1..] == rest;
    assert ResolveIn(dsl, path) == Resolve(Under(ITEMS), items, path[1..]);
    assert FlatPath(InList, dsl, path) == FlatPath(Under(ITEMS), items, path[1..]);
  }

  lemma FieldRebased(place: Place, v: Json, k: string)
    requires v.JObject?
    ensures Rebase(place, v).JObject? && Rebase(place, v).fields.Keys == v.fields.Keys
    ensures k in v.fields ==> Rebase(place, v).fields[k] == Rebase(Under(k), v.fields[k])
  {
  }

  lemma DefinitionsRelocated(dsl: Json, isArray: bool, crd: Json, path: seq<string>)
    requires (isArray || IsArraySchema(dsl)) && HasItems(dsl) && Generate(dsl, isArray, crd, path).Some?
    ensures Child(Generate(dsl, isArray, crd, path).value, DEFINITIONS)
            == RebaseAt(Child(dsl.fields[ITEMS], DEFINITIONS))
  {
    assert DEFINITIONS != PROPERTIES by { assert DEFINITIONS[0] != PROPERTIES[0]; }
    FieldRebased(InList, dsl, ITEMS);
    FieldRebased(Under(ITEMS), dsl.fields[ITEMS], DEFINITIONS);
    FieldRebased(InList, dsl.fields[ITEMS], DEFINITIONS);
    var (value, definitions) := StoredParts(dsl, isArray, crd, path);
    SetPropertyKeepsRoot(WithDefinitions(crd, definitions), path, value);
  }

  // ---- The embedded schema ----------------------------------------------------------------

  /** The way to a property: through "properties" and its name, once per step. */
  function PropertyPath(path: seq<string>): seq<string> {
    if path == [] then [] else ["properties", path[0]] + PropertyPath(path[1..])
  }

  /** What is to be embedded: the rebased schema, or its rebased items when it is an array that is not wanted as one;
      without the definitions, which a wanted array has in its items. */
  ghost predicate IsEmbedded(dsl: Json, isArray: bool, v: Json) {
    if isArray then
      && RebaseDocument(dsl).JObject? && v.JObject? && v.fields.Keys == RebaseDocument(dsl).fields.Keys
      && "items" in v.fields && RebaseDocument(dsl).fields["items"].JObject?
      && v.fields["items"] == JObject(RebaseDocument(dsl).fields["items"].fields - {"definitions"})
      && forall k :: k in v.fields && k != "items" ==> v.fields[k] == RebaseDocument(dsl).fields[k]
    else
      exists r: Json :: r.JObject? && IsSource(dsl, r) && v == JObject(r.fields - {"definitions"})
  }

  /** The rebased schema that is not wanted as an array. */
  predicate IsSource(dsl: Json, r: Json) {
    dsl.JObject? &&
    if "type" in dsl.fields && dsl.fields["type"] == JString("array") then
      "items" in dsl.fields && r == RebaseDocument(dsl.fields["items"])
    else r == RebaseDocument(dsl)
  }

  lemma StoredIsEmbedded(dsl: Json, isArray: bool, crd: Json, path: seq<string>)
    requires Generate(dsl, isArray, crd, path).Some?
    ensures IsEmbedded(dsl, isArray, StoredParts(dsl, isArray, crd, path).0)
  {
    var schema := RebaseDocument(if !isArray && IsArraySchema(dsl) then dsl.fields[ITEMS] else dsl);
    if !isArray {
      assert IsSource(dsl, schema);
    }
  }

  lemma PropertySteps(root: Json, place: Place, path: seq<string>)
    requires path != []
    ensures Resolve(place, root, PropertyPath(path))
         == match Child(root, "properties")
            case None => None
            case Some(c) =>
              match Child(c.1, path[0])
              case None => None
              case Some(d) => Resolve(d.0, d.1, PropertyPath(path[1..]))
  {
    var way := PropertyPath(path);
    assert way[0] == "properties" && way[1..][0] == path[0] && way[1..][1..] == PropertyPath(path[1..]);
  }

  /** The value lies at the end of the path. */
  lemma {:induction false} PropertyIsSet(schema: Json, place: Place, path: seq<string>, value: Json)
    requires path != [] && SetProperty(schema, path, value).Some?
    ensures Resolve(place, SetProperty(schema, path, value).value, PropertyPath(path))
         == Some((Under(path[|path| - 1]), value))
    decreases |path|
  {
    var after := SetProperty(schema, path, value).value;
    PropertySteps(after, place, path);
    if |path| > 1 {
      var properties := schema.fields[PROPERTIES].fields;
      PropertyIsSet(properties[path[0]], Under(path[0]), path[1..], value);
    }
  }

  /** Whatever does not lie on the way there, or behind it, is as it was. */
  lemma {:induction false} PropertyKeeps(schema: Json, place: Place, path: seq<string>, value: Json, p: seq<string>)
    requires path != [] && SetProperty(schema, path, value).Some?
    requires !(p <= PropertyPath(path)) && !(PropertyPath(path) <= p)
    ensures Resolve(place, SetProperty(schema, path, value).value, p) == Resolve(place, schema, p)
    decreases |path|
  {
    var after, way := SetProperty(schema, path, value).value, PropertyPath(path);
    assert way[0] == "properties" && way[1] == path[0] && way[2..] == PropertyPath(path[1..]);
    assert p != [];
    if p[0] == "properties" {
      assert way[..1] == ["properties"] && way[..1] <= way;
      assert p != ["properties"];
      assert p[1..][0] == p[1] && p[1..][1..] == p[2..];
      if p[1] == path[0] {
        assert p == way[..2] + p[2..];
        assert way == way[..2] + way[2..];
        if |path| > 1 {
          var properties := schema.fields[PROPERTIES].fields;
          assert !(p[2..] <= way[2..]) && !(way[2..] <= p[2..]);
          PropertyKeeps(properties[path[0]], Under(path[0]), path[1..], value, p[2..]);
        }
      }
    }
  }

  /** The generated CRD schema holds the embedded schema at the end of the path, and at every place that is neither on
      the way there, nor behind it, nor in the definitions, what it held before. */
  lemma GeneratedHoldsSchema(dsl: Json, isArray: bool, crd: Json, path: seq<string>) returns (v: Json)
    requires Generate(dsl, isArray, crd, path).Some?
    ensures path != [] && IsEmbedded(dsl, isArray, v)
    ensures ResolveIn(Generate(dsl, isArray, crd, path).value, PropertyPath(path)) == Some((Under(path[|path| - 1]), v))
    ensures forall p :: !(p <= PropertyPath(path)) && !(PropertyPath(path) <= p) && p[0] != "definitions" ==>
              ResolveIn(Generate(dsl, isArray, crd, path).value, p) == ResolveIn(crd, p)
  {
    var definitions: Option<Json>;
    v, definitions := StoredParts(dsl, isArray, crd, path).0, StoredParts(dsl, isArray, crd, path).1;
    StoredIsEmbedded(dsl, isArray, crd, path);
    var root := WithDefinitions(crd, definitions);
    PropertyIsSet(root, InList, path, v);
    forall p | !(p <= PropertyPath(path)) && !(PropertyPath(path) <= p) && p[0] != "definitions"
      ensures ResolveIn(Generate(dsl, isArray, crd, path).value, p) == ResolveIn(crd, p)
    {
      PropertyKeeps(root, InList, path, v, p);
      assert Child(root, p[0]) == Child(crd, p[0]);
    }
  }

  /** The definitions of what is embedded lie at the root of the generated schema: those of the items of a wanted array,
      else those of the source. Without any the root has none. */
  lemma GeneratedHoldsDefinitions(dsl: Json, isArray: bool, crd: Json, path: seq<string>) returns (r: Json)
    requires Generate(dsl, isArray, crd, path).Some?
    ensures if isArray then RebaseDocument(dsl).JObject? && "items" in RebaseDocument(dsl).fields
                            && r == RebaseDocument(dsl).fields["items"]
            else IsSource(dsl, r)
    ensures Child(Generate(dsl, isArray, crd, path).value, "definitions") == Child(r, "definitions")
  {
    assert DEFINITIONS != PROPERTIES by { assert DEFINITIONS[0] != PROPERTIES[0]; }
    var schema := RebaseDocument(if !isArray && IsArraySchema(dsl) then dsl.fields[ITEMS] else dsl);
    r := if isArray then schema.fields[ITEMS] else schema;
    var (value, definitions) := StoredParts(dsl, isArray, crd, path);
    SetPropertyKeepsRoot(WithDefinitions(crd, definitions), path, value);
  }

  // ---- When the generator panics ----------------------------------------------------------

  /** At every step of the path there is a map of properties to go through. */
  ghost predicate HasWay(schema: Json, place: Place, path: seq<string>) {
    forall i {:trigger path[..i]} :: 0 <= i < |path| ==>
      match Resolve(place, schema, PropertyPath(path[..i]))
      case Some(c) => c.1.JObject? && "properties" in c.1.fields && c.1.fields["properties"].JObject?
      case None => false
  }

  lemma HasWayStep(schema: Json, place: Place, path: seq<string>)
    requires path != []
    requires schema.JObject? && "properties" in schema.fields && schema.fields["properties"].JObject?
    requires |path| > 1 ==> path[0] in schema.fields["properties"].fields
    ensures HasWay(schema, place, path)
            <==> (|path| > 1 ==> HasWay(schema.fields["properties"].fields[path[0]], Under(path[0]), path[1..]))
  {
    var first := path[..0];
    assert first == [] && PropertyPath(first) == [];
    if |path| > 1 {
      var child := schema.fields["properties"].fields[path[0]];
      forall i | 0 <= i < |path| - 1
        ensures Resolve(place, schema, PropertyPath(path[..i + 1]))
             == Resolve(Under(path[0]), child, PropertyPath(path[1..][..i]))
      {
        assert path[..i + 1][0] == path[0] && path[..i + 1][1..] == path[1..][..i];
        PropertySteps(schema, place, path[..i + 1]);
      }
      if HasWay(schema, place, path) {
        forall i | 0 <= i < |path| - 1
          ensures match Resolve(Under(path[0]), child, PropertyPath(path[1..][..i]))
                  case Some(c) => c.1.JObject? && "properties" in c.1.fields && c.1.fields["properties"].JObject?
                  case None => false
        {
          assert path[..i + 1] == path[..i + 1];
        }
      }
      if HasWay(child, Under(path[0]), path[1..]) {
        forall i | 0 <= i < |path|
          ensures match Resolve(place, schema, PropertyPath(path[..i]))
                  case Some(c) => c.1.JObject? && "properties" in c.1.fields && c.1.fields["properties"].JObject?
                  case None => false
        {
          if i > 0 {
            assert path[1..][..i - 1] == path[1..][..i - 1];
          }
        }
      }
    }
  }

  lemma HasWayNeeds(schema: Json, place: Place, path: seq<string>)
    requires path != [] && HasWay(schema, place, path)
    ensures schema.JObject? && "properties" in schema.fields && schema.fields["properties"].JObject?
    ensures |path| > 1 ==> path[0] in schema.fields["properties"].fields
  {
    assert path[..0] == [];
    if |path| > 1 {
      assert path[..1][0] == path[0] && path[..1][1..] == [];
      PropertySteps(schema, place, path[..1]);
    }
  }

  lemma {:induction false} SetPropertyIff(schema: Json, place: Place, path: seq<string>, value: Json)
    requires path != []
    ensures SetProperty(schema, path, value).Some? <==> HasWay(schema, place, path)
    decreases |path|
  {
    if HasWay(schema, place, path) {
      HasWayNeeds(schema, place, path);
    }
    if schema.JObject? && "properties" in schema.fields && schema.fields["properties"].JObject? {
      if |path| == 1 {
        HasWayStep(schema, place, path);
      } else if path[0] in schema.fields["properties"].fields {
        HasWayStep(schema, place, path);
        SetPropertyIff(schema.fields["properties"].fields[path[0]], Under(path[0]), path[1..], value);
      }
    }
  }

  lemma {:induction false} DigitsLead(n: nat)
    ensures Digits(n)[0] == '0' <==> n == 0
  {
    if n >= 10 {
      DigitsLead(n / 10);
    }
  }

  lemma IndexToken(i: nat)
    ensures ArrayIndex(Digits(i)) == Some(i)
  {
    DigitsLead(i);
    DigitsRoundTrip(i);
  }

  /** A document on which the rewrite panics has a null that can be reached without leaving a list in a list. */
  lemma {:induction false} NullIsReached(place: Place, v: Json) returns (p: seq<string>)
    requires !NullFree(place, v)
    ensures FlatPath(place, v, p) && Resolve(place, v, p).Some? && Resolve(place, v, p).value.1 == JNull
    decreases v
  {
    match v {
      case JNull => p := [];
      case JObject(fields) =>
        var k :| k in fields && !NullFree(Under(k), fields[k]);
        var rest := NullIsReached(Under(k), fields[k]);
        p := [k] + rest;
        assert p[1..] == rest;
      case JArray(items) =>
        var i :| 0 <= i < |items| && !NullFree(InList, items[i]);
        var rest := NullIsReached(InList, items[i]);
        IndexToken(i);
        p := [Digits(i)] + rest;
        assert p[1..] == rest;
    }
  }

  lemma {:induction false} NoNullReached(place: Place, v: Json, p: seq<string>)
    requires NullFree(place, v) && FlatPath(place, v, p)
    ensures Resolve(place, v, p).Some? ==> Resolve(place, v, p).value.1 != JNull
    decreases |p|
  {
    if p != [] && Child(v, p[0]).Some? {
      var c := Child(v, p[0]).value;
      NoNullReached(c.0, c.1, p[1..]);
    }
  }

  /** The rewrite panics exactly on the documents in which a null can be reached without leaving a list in a list. */
  lemma NullFreeIff(v: Json)
    ensures NullFree(InList, v)
            <==> forall p :: FlatPath(InList, v, p) && ResolveIn(v, p).Some? ==> ResolveIn(v, p).value.1 != JNull
  {
    if NullFree(InList, v) {
      forall p | FlatPath(InList, v, p) && ResolveIn(v, p).Some? ensures ResolveIn(v, p).value.1 != JNull {
        NoNullReached(InList, v, p);
      }
    } else {
      var p := NullIsReached(InList, v);
      assert ResolveIn(v, p).value.1 == JNull;
    }
  }

  /** The generator gets through exactly when the CRD schema has no definitions yet and a way for the path, which has
      a part, and the DSL schema has no null and, when its items are needed, items. */
  lemma GenerateIff(dsl: Json, isArray: bool, crd: Json, path: seq<string>)
    ensures Generate(dsl, isArray, crd, path).Some?
            <==> && crd.JObject? && "definitions" !in crd.fields && path != [] && HasWay(crd, InList, path)
                 && dsl.JObject?
                 && (isArray || ("type" in dsl.fields && dsl.fields["type"] == JString("array")) ==>
                       "items" in dsl.fields && dsl.fields["items"].JObject?)
                 && (if !isArray && "type" in dsl.fields && dsl.fields["type"] == JString("array") then
                       NullFree(InList, dsl.fields["items"])
                     else NullFree(InList, dsl))
  {
    hide HasWay, SetProperty;
    if crd.JObject? && path != [] && dsl.JObject? && DefinitionsOf(crd) == None {
      FieldRebased(InList, dsl, ITEMS);
      var schema := RebaseDocument(if !isArray && IsArraySchema(dsl) && HasItems(dsl) then dsl.fields[ITEMS] else dsl);
      var holder := if isArray && HasItems(schema) then schema.fields[ITEMS] else schema;
      var definitions := DefinitionsOf(holder);
      WayApart(crd, definitions, path);
      if schema.JObject? {
        var value := if isArray && HasItems(schema) then JObject(schema.fields[ITEMS := WithoutDefinitions(holder)])
                     else WithoutDefinitions(schema);
        SetPropertyIff(WithDefinitions(crd, definitions), InList, path, value);
      }
    }
  }

  /** Definitions at the root do not stand in the way. */
  lemma WayApart(crd: Json, definitions: Option<Json>, path: seq<string>)
    requires crd.JObject? && path != []
    ensures HasWay(WithDefinitions(crd, definitions), InList, path) <==> HasWay(crd, InList, path)
  {
    hide HasWay;
    assert DEFINITIONS != PROPERTIES by { assert DEFINITIONS[0] != PROPERTIES[0]; }
    SetPropertyIff(crd, InList, path, JNull);
    SetPropertyIff(WithDefinitions(crd, definitions), InList, path, JNull);
  }

  // ---- Blank parts ------------------------------------------------------------------------

  lemma DropBlankOne(part: string)
    ensures DropBlank([part]) == if exists c :: c in part && !IsSpace(c) then [part] else []
  {
    assert [part][..0] == [];
  }

  /** Dropping blank parts works part by part. */
  lemma {:induction false} DropBlankAppend(a: seq<string>, b: seq<string>)
    ensures DropBlank(a + b) == DropBlank(a) + DropBlank(b)
  {
    if b == [] {
      assert a + b == a;
    } else {
      DropBlankAppend(a, b[..|b| - 1]);
      assert (a + b)[..|a + b| - 1] == a + b[..|b| - 1];
    }
  }
}
