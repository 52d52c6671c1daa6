/** The schema closure of scripts/export-bruno-catalog.py: every component schema
    reachable from an operation's schema, over a reference graph that may be
    cyclic, with names decoded as section 4 of RFC 6901 says. */
module SchemaClosure {
  import opened Common

  datatype Json =
    | Null
    | Bool(truth: bool)
    | Number(number: real)
    | Str(text: string)
    | Arr(items: seq<Json>)
    | Obj(fields: seq<Field>)

  /** One entry of a JSON object; keys are unique because the reader refuses duplicates. */
  datatype Field = Field(key: string, value: Json)

  const REF: string := "$ref"

  // ---------- reference tokens ----------

  /** `text.replace("~" + digit, sub)`. */
  function Replace(text: string, digit: char, sub: char): (r: string) {
    if |text| < 2 then text
    else if text[0] == '~' && text[1] == digit then [sub] + Replace(text[2..], digit, sub)
    else [text[0]] + Replace(text[1..], digit, sub)
  }

  /** A token as the exporter decodes it: first "~1", then "~0". */
  function Unescape(text: string): (r: string) {
    Replace(Replace(text, '1', '/'), '0', '~')
  }

  /** RFC 6901, section 3: '~' is written "~0" and '/' is written "~1". */
  function Escape(name: string): (r: string) {
    if name == "" then ""
    else (if name[0] == '~' then "~0" else if name[0] == '/' then "~1" else [name[0]]) + Escape(name[1..])
  }

  /** Both escapes decoded in one left-to-right pass. */
  function UnescapeOnce(text: string): (r: string) {
    if text == "" then ""
    else if |text| >= 2 && text[0] == '~' && text[1] == '1' then "/" + UnescapeOnce(text[2..])
    else if |text| >= 2 && text[0] == '~' && text[1] == '0' then "~" + UnescapeOnce(text[2..])
    else [text[0]] + UnescapeOnce(text[1..])
  }

  lemma ReplaceHead(text: string, digit: char, sub: char)
    requires text != "" && sub != digit
    ensures Replace(text, digit, sub) != ""
    ensures text[0] != '~' ==> Replace(text, digit, sub) == [text[0]] + Replace(text[1..], digit, sub)
    ensures Replace(text, digit, sub)[0] in {text[0], sub}
  {
    if |text| == 1 { assert text[1..] == "" && text == [text[0]]; }
  }

  /** Replacing in two passes never creates or loses an escape. */
  lemma {:induction false} UnescapeIsOnePass(text: string)
    ensures Unescape(text) == UnescapeOnce(text)
  {
    if |text| < 2 {
      if |text| == 1 { assert text == [text[0]] + ""; }
    } else {
      var first := Replace(text, '1', '/');
      if text[0] != '~' {
        UnescapeIsOnePass(text[1..]);
        ReplaceHead(first, '0', '~');
        assert first[1..] == Replace(text[1..], '1', '/');
      } else if text[1] == '1' {
        UnescapeIsOnePass(text[2..]);
        ReplaceHead(first, '0', '~');
        assert first[1..] == Replace(text[2..], '1', '/');
      } else if text[1] == '0' {
        UnescapeIsOnePass(text[2..]);
        ReplaceHead(text[1..], '1', '/');
        assert text[1..][1..] == text[2..];
        assert first == "~" + ("0" + Replace(text[2..], '1', '/'));
        assert first[2..] == Replace(text[2..], '1', '/');
      } else {
        UnescapeIsOnePass(text[1..]);
        ReplaceHead(text[1..], '1', '/');
        assert first[1..] == Replace(text[1..], '1', '/');
      }
    }
  }

  /** Every schema name survives being written as a reference token. */
  lemma {:induction false} UnescapeEscape(name: string)
    ensures Unescape(Escape(name)) == name
    ensures '/' !in Escape(name)
  {
    UnescapeIsOnePass(Escape(name));
    OnePassEscape(name);
  }

  lemma {:induction false} OnePassEscape(name: string)
    ensures UnescapeOnce(Escape(name)) == name
    ensures '/' !in Escape(name)
  {
    if name != "" {
      OnePassEscape(name[1..]);
      var text := Escape(name);
      if name[0] == '~' || name[0] == '/' {
        assert text[2..] == Escape(name[1..]);
      } else {
        assert text[1..] == Escape(name[1..]);
      }
      assert name == [name[0]] + name[1..];
    }
  }

  // ---------- walking a reference ----------

  /** `text.split("/")`. */
  function Split(text: string): (tokens: seq<string>)
    ensures tokens != []
  {
    if text == "" then [""]
    else if text[0] == '/' then [""] + Split(text[1..])
    else
      var rest := Split(text[1..]);
      [[text[0]] + rest[0]] + rest[1..]
  }

  lemma {:induction false} SplitToken(token: string, rest: string)
    requires '/' !in token
    ensures Split(token + "/" + rest) == [token] + Split(rest)
    ensures Split(token) == [token]
  {
    if token == "" {
      assert token + "/" + rest == "/" + rest;
      assert ("/" + rest)[1..] == rest;
    } else {
      SplitToken(token[1..], rest);
      var text := token + "/" + rest;
      assert text[1..] == token[1..] + "/" + rest;
      assert token == [token[0]] + token[1..];
    }
  }

  function Lookup(fields: seq<Field>, key: string): (r: Option<Json>)
    ensures r.Some? <==> exists i :: 0 <= i < |fields| && fields[i].key == key
    ensures r.Some? ==> Field(key, r.value) in fields
  {
    if fields == [] then None
    else if fields[0].key == key then Some(fields[0].value)
    else
      assert forall i :: 0 < i < |fields| ==> fields[1..][i - 1] == fields[i];
      Lookup(fields[1..], key)
  }

  function Walk(value: Json, tokens: seq<string>): (r: Option<Json>) {
    if tokens == [] then Some(value)
    else if !value.Obj? then None
    else
      var next := Lookup(value.fields, Unescape(tokens[0]));
      if next.None? then None else Walk(next.value, tokens[1..])
  }

  /** The value a local reference names, or None when it is refused. */
  function Reference(document: Json, ref: Json): (r: Option<Json>) {
    if ref.Str? && "#/" <= ref.text then Walk(document, Split(ref.text[2..])) else None
  }

  // ---------- the reference graph ----------

  /** Where a document keeps its component schemas: two plain keys. */
  datatype Home = Home(first: string, second: string)

  const COMPONENT_SCHEMAS: Home := Home("components", "schemas")

  function RefPrefix(home: Home): (prefix: string) {
    "#/" + home.first + "/" + home.second + "/"
  }

  /** The component a schema reference names; None when the exporter refuses it. */
  function RefName(document: Json, home: Home, ref: Json): (name: Option<string>) {
    if !ref.Str? || !(RefPrefix(home) <= ref.text) then None
    else
      var encoded := ref.text[|RefPrefix(home)|..];
      if '/' in encoded || Reference(document, ref).None? then None else Some(Unescape(encoded))
  }

  function Schemas(document: Json, home: Home): (fields: seq<Field>) {
    match Walk(document, [home.first, home.second])
    case Some(Obj(fields)) => fields
    case _ => []
  }

  function SchemaNames(document: Json, home: Home): (names: set<string>) {
    set i | 0 <= i < |Schemas(document, home)| :: Schemas(document, home)[i].key
  }

  /** The component schema of that name; Null when there is none. */
  function Target(document: Json, home: Home, name: string): (schema: Json) {
    match Lookup(Schemas(document, home), name)
    case Some(schema) => schema
    case None => Null
  }

  lemma WalkAppend(value: Json, tokens: seq<string>, last: string)
    ensures Walk(value, tokens + [last]) ==
            match Walk(value, tokens)
            case Some(Obj(fields)) => Lookup(fields, Unescape(last))
            case _ => None
  {
    if tokens != [] {
      assert (tokens + [last])[1..] == tokens[1..] + [last];
    } else {
      assert tokens + [last] == [last] && [last][1..] == [];
    }
  }

  lemma RefText(home: Home, text: string)
    requires RefPrefix(home) <= text
    ensures "#/" <= text
    ensures text[2..] == home.first + "/" + (home.second + "/" + text[|RefPrefix(home)|..])
  {
    var prefix := RefPrefix(home);
    var last := text[|prefix|..];
    assert text == prefix + last;
    assert prefix == "#/" + (home.first + "/" + home.second + "/");
    assert text == "#/" + (home.first + "/" + (home.second + "/" + last));
  }

  lemma SplitThree(first: string, second: string, last: string)
    requires '/' !in first && '/' !in second && '/' !in last
    ensures Split(first + "/" + (second + "/" + last)) == [first, second] + [last]
  {
    SplitToken(first, second + "/" + last);
    SplitToken(second, last);
    SplitToken(last, "");
  }

  /** A supported reference resolves to the component it names. */
  lemma RefResolves(document: Json, home: Home, ref: Json)
    requires '/' !in home.first && '/' !in home.second
    requires RefName(document, home, ref).Some?
    ensures var name := RefName(document, home, ref).value;
            && name in SchemaNames(document, home)
            && Reference(document, ref) == Some(Target(document, home, name))
  {
    var last := ref.text[|RefPrefix(home)|..];
    RefText(home, ref.text);
    SplitThree(home.first, home.second, last);
    ResolveLast(document, home, last);
    assert Reference(document, ref) == Walk(document, [home.first, home.second] + [last]);
  }

  /** Keys without '~' are written as they are. */
  lemma {:induction false} PlainKey(text: string)
    requires '~' !in text
    ensures Unescape(text) == text
  {
    UnescapeIsOnePass(text);
    PlainInOnePass(text);
  }

  lemma {:induction false} PlainInOnePass(text: string)
    requires '~' !in text
    ensures UnescapeOnce(text) == text
  {
    if text != "" {
      PlainInOnePass(text[1..]);
      assert text == [text[0]] + text[1..];
    }
  }

  lemma WalkTwo(document: Json, first: string, second: string, components: seq<Field>, schemas: seq<Field>)
    requires '~' !in first && '~' !in second
    requires document.Obj? && Lookup(document.fields, first) == Some(Obj(components)) && Lookup(components, second) == Some(Obj(schemas))
    ensures Walk(document, [first, second]) == Some(Obj(schemas))
  {
    PlainKey(first);
    PlainKey(second);
    assert [first, second][1..] == [second] && [second][1..] == [];
    assert Walk(Obj(components), [second]) == Walk(Obj(schemas), []);
    assert Walk(document, [first, second]) == Walk(Obj(components), [second]);
  }

  /** Every component of a document can be named: the reference made of its escaped name is
      supported, names it, and resolves to its schema. */
  lemma NameRefers(document: Json, home: Home, components: seq<Field>, schemas: seq<Field>, name: string, schema: Json)
    requires '/' !in home.first && '/' !in home.second && '~' !in home.first && '~' !in home.second
    requires document.Obj? && Lookup(document.fields, home.first) == Some(Obj(components))
    requires Lookup(components, home.second) == Some(Obj(schemas)) && Lookup(schemas, name) == Some(schema)
    ensures var ref := Str("#/" + home.first + "/" + home.second + "/" + Escape(name));
            && RefName(document, home, ref) == Some(name)
            && Reference(document, ref) == Some(schema) && Target(document, home, name) == schema
  {
    var last := Escape(name);
    var text := RefPrefix(home) + last;
    UnescapeEscape(name);
    assert text[|RefPrefix(home)|..] == last;
    RefText(home, text);
    SplitThree(home.first, home.second, last);
    WalkTwo(document, home.first, home.second, components, schemas);
    WalkAppend(document, [home.first, home.second], last);
  }

  lemma EveryNameRefers(document: Json, components: seq<Field>, schemas: seq<Field>, name: string, schema: Json)
    requires document.Obj? && Lookup(document.fields, "components") == Some(Obj(components))
    requires Lookup(components, "schemas") == Some(Obj(schemas)) && Lookup(schemas, name) == Some(schema)
    ensures var ref := Str("#/" + "components" + "/" + "schemas" + "/" + Escape(name));
            && RefName(document, COMPONENT_SCHEMAS, ref) == Some(name)
            && Reference(document, ref) == Some(schema) && Target(document, COMPONENT_SCHEMAS, name) == schema
  {
    NameRefers(document, COMPONENT_SCHEMAS, components, schemas, name, schema);
  }

  lemma ResolveLast(document: Json, home: Home, last: string)
    ensures var found, name := Walk(document, [home.first, home.second] + [last]), Unescape(last);
            found.Some? ==> name in SchemaNames(document, home) && found == Some(Target(document, home, name))
  {
    WalkAppend(document, [home.first, home.second], last);
    var fields := Schemas(document, home);
    if Lookup(fields, Unescape(last)).Some? {
      var i :| 0 <= i < |fields| && fields[i].key == Unescape(last);
      assert fields[i].key in SchemaNames(document, home);
    }
  }

  /** Every `$ref` the exporter meets inside one value, at any depth. */
  ghost function RefsIn(value: Json): (refs: set<Json>)
    decreases value
  {
    match value
    case Arr(items) => set item, ref | item in items && ref in RefsIn(item) :: ref
    case Obj(fields) =>
      (match Lookup(fields, REF) case Some(ref) => {ref} case None => {}) +
      set field, ref | field in fields && field.key != REF && ref in RefsIn(field.value) :: ref
    case _ => {}
  }

  /** A reference counts wherever it stands: as the object's own, in an item of an array, or
      in any other field, at any depth. */
  lemma RefsEverywhere(value: Json, ref: Json)
    ensures value.Obj? && Lookup(value.fields, "$ref") == Some(ref) ==> ref in RefsIn(value)
    ensures value.Arr? ==> (ref in RefsIn(value) <==> exists i :: 0 <= i < |value.items| && ref in RefsIn(value.items[i]))
    ensures value.Obj? ==>
              (ref in RefsIn(value) <==>
                 Lookup(value.fields, "$ref") == Some(ref)
                 || exists i :: 0 <= i < |value.fields| && value.fields[i].key != "$ref" && ref in RefsIn(value.fields[i].value))
    ensures !value.Obj? && !value.Arr? ==> RefsIn(value) == {}
  {
    match value
    case Arr(items) =>
      if ref in RefsIn(value) {
        var item :| item in items && ref in RefsIn(item);
        var i :| 0 <= i < |items| && items[i] == item;
      }
    case Obj(fields) =>
      if ref in RefsIn(value) && Lookup(fields, REF) != Some(ref) {
        var field :| field in fields && field.key != REF && ref in RefsIn(field.value);
        var i :| 0 <= i < |fields| && fields[i] == field;
      }
    case _ =>
  }

  /** The reference graph, as the closure sees it: which component a `$ref`
      names, if any, and what schema a component has. */
  datatype Graph = Graph(names: set<string>, nameOf: Json -> Option<string>, target: string -> Json) {
    ghost predicate Valid() {
      forall ref :: nameOf(ref).Some? ==> nameOf(ref).value in names
    }
  }

  function GraphOf(document: Json, home: Home): (g: Graph) {
    Graph(SchemaNames(document, home),
          ref => RefName(document, home, ref),
          name => Target(document, home, name))
  }

  /** The graph of a document: names are known components, and following a
      reference through the document reaches the named component. */
  lemma GraphOfDocument(document: Json, home: Home)
    requires '/' !in home.first && '/' !in home.second
    ensures var g := GraphOf(document, home);
            g.Valid() && forall ref :: g.nameOf(ref).Some? ==> Reference(document, ref) == Some(g.target(g.nameOf(ref).value))
  {
    forall ref | RefName(document, home, ref).Some?
      ensures RefName(document, home, ref).value in SchemaNames(document, home)
      ensures Reference(document, ref) == Some(Target(document, home, RefName(document, home, ref).value))
    {
      RefResolves(document, home, ref);
    }
  }

  /** One edge of the reference graph: a value mentions a component. */
  ghost predicate Mentions(g: Graph, value: Json, name: string) {
    exists ref :: ref in RefsIn(value) && g.nameOf(ref) == Some(name)
  }

  /** `path` follows references from a value, one component after another. */
  ghost predicate IsPath(g: Graph, value: Json, path: seq<string>)
    decreases |path|
  {
    && path != []
    && Mentions(g, value, path[0])
    && (|path| > 1 ==> IsPath(g, g.target(path[0]), path[1..]))
  }

  ghost predicate Reachable(g: Graph, value: Json, name: string) {
    exists path :: IsPath(g, value, path) && path[|path| - 1] == name
  }

  /** A reference the exporter refuses, in the value itself or in a reachable component. */
  ghost predicate Broken(g: Graph, value: Json) {
    || (exists ref :: ref in RefsIn(value) && g.nameOf(ref).None?)
    || (exists name, ref :: Reachable(g, value, name)
                         && ref in RefsIn(g.target(name)) && g.nameOf(ref).None?)
  }

  /** Every reference inside a value is supported and already defined. */
  ghost predicate Covered(g: Graph, value: Json, names: set<string>) {
    forall ref :: ref in RefsIn(value) ==>
                    var name := g.nameOf(ref); name.Some? && name.value in names
  }

  lemma ReachStep(g: Graph, value: Json, name: string)
    requires Mentions(g, value, name)
    ensures Reachable(g, value, name)
  {
    assert IsPath(g, value, [name]);
  }

  lemma {:induction false} PathCons(g: Graph, value: Json, name: string, path: seq<string>)
    requires Mentions(g, value, name)
    requires IsPath(g, g.target(name), path)
    ensures IsPath(g, value, [name] + path)
  {
    assert ([name] + path)[0] == name;
    assert ([name] + path)[1..] == path;
  }

  lemma {:induction false} ReachThrough(g: Graph, value: Json, name: string, next: string)
    requires Mentions(g, value, name)
    requires Reachable(g, g.target(name), next)
    ensures Reachable(g, value, next)
  {
    var path :| IsPath(g, g.target(name), path) && path[|path| - 1] == next;
    PathCons(g, value, name, path);
    var longer := [name] + path;
    assert longer[|longer| - 1] == next;
  }

  /** Reachability only looks at the references inside the value. */
  lemma ReachWithin(g: Graph, part: Json, value: Json, name: string)
    requires RefsIn(part) <= RefsIn(value)
    requires Reachable(g, part, name)
    ensures Reachable(g, value, name)
  {
    var path :| IsPath(g, part, path) && path[|path| - 1] == name;
    assert IsPath(g, value, path);
  }

  lemma BrokenWithin(g: Graph, part: Json, value: Json)
    requires RefsIn(part) <= RefsIn(value) && Broken(g, part)
    ensures Broken(g, value)
  {
    if !(exists ref :: ref in RefsIn(part) && g.nameOf(ref).None?) {
      var name, ref :| Reachable(g, part, name)
                    && ref in RefsIn(g.target(name)) && g.nameOf(ref).None?;
      ReachWithin(g, part, value, name);
    }
  }

  lemma BrokenThrough(g: Graph, value: Json, name: string)
    requires Mentions(g, value, name) && Broken(g, g.target(name))
    ensures Broken(g, value)
  {
    var target := g.target(name);
    if ref :| ref in RefsIn(target) && g.nameOf(ref).None? {
      ReachStep(g, value, name);
    } else {
      var next, ref :| Reachable(g, target, next)
                    && ref in RefsIn(g.target(next)) && g.nameOf(ref).None?;
      ReachThrough(g, value, name, next);
    }
  }

  /** A set of components that covers the value and itself contains all that is reachable. */
  lemma {:induction false} CoveredClosed(g: Graph, value: Json, names: set<string>, path: seq<string>)
    requires Covered(g, value, names)
    requires forall name :: name in names ==> Covered(g, g.target(name), names)
    requires IsPath(g, value, path)
    ensures path[|path| - 1] in names
    decreases |path|
  {
    if |path| > 1 {
      CoveredClosed(g, g.target(path[0]), names, path[1..]);
    }
  }

  // ---------- the closure ----------

  /** What one visit adds: exactly reachable components, each with its references covered. */
  ghost predicate Grown(g: Graph, value: Json, before: map<string, Json>, after: map<string, Json>) {
    && (forall name :: name in before.Keys ==> name in after && after[name] == before[name])
    && before.Keys <= after.Keys <= before.Keys + g.names
    && forall name :: name in after.Keys - before.Keys ==>
         && after[name] == g.target(name)
         && Reachable(g, value, name)
         && Covered(g, g.target(name), after.Keys)
  }

  lemma GrownTwice(g: Graph, value: Json, a: map<string, Json>, b: map<string, Json>, c: map<string, Json>)
    requires Grown(g, value, a, b) && Grown(g, value, b, c)
    ensures Grown(g, value, a, c)
  {}

  lemma GrownWithin(g: Graph, part: Json, value: Json, a: map<string, Json>, b: map<string, Json>)
    requires RefsIn(part) <= RefsIn(value) && Grown(g, part, a, b)
    ensures Grown(g, value, a, b)
  {
    forall name | name in b.Keys - a.Keys ensures Reachable(g, value, name) {
      ReachWithin(g, part, value, name);
    }
  }

  /** Defining a mentioned component and visiting its schema. */
  lemma GrownThrough(g: Graph, value: Json, name: string, a: map<string, Json>, b: map<string, Json>)
    requires Mentions(g, value, name) && name in g.names && name !in a
    requires var target := g.target(name);
             Grown(g, target, a[name := target], b) && Covered(g, target, b.Keys)
    ensures Grown(g, value, a, b) && name in b
  {
    ReachStep(g, value, name);
    forall next | next in b.Keys - a.Keys ensures Reachable(g, value, next) {
      if next != name { ReachThrough(g, value, name, next); }
    }
  }

  class Closure {
    const g: Graph
    var definitions: map<string, Json>

    constructor (g: Graph)
      ensures this.g == g && definitions == map[]
    {
      this.g := g;
      definitions := map[];
    }

    /** Visits one value. It succeeds exactly when no refused reference is met,
        and then every reference inside the value is covered. */
    method Visit(value: Json) returns (ok: bool)
      requires g.Valid()
      modifies this
      ensures ok ==> Grown(g, value, old(definitions), definitions) && Covered(g, value, definitions.Keys)
      ensures !ok ==> Broken(g, value)
      decreases g.names - definitions.Keys, value, 2
    {
      match value {
        case Arr(items) =>
          ok := VisitParts(value, items);
          if ok {
            ArrCovered(g, value, definitions.Keys);
          }
        case Obj(fields) =>
          var ref := Lookup(fields, REF);
          if ref.Some? {
            ok := VisitRef(value, ref.value);
            if !ok {
              return;
            }
          }
          ghost var middle := definitions;
          ok := VisitParts(value, Children(fields));
          if ok {
            GrownTwice(g, value, old(definitions), middle, definitions);
            ObjCovered(g, value, definitions.Keys);
          }
        case _ => ok := true;
      }
    }

    /** Visits one more part of a value, after the parts in `done`. */
    method VisitPart(part: Json, value: Json, ghost before: map<string, Json>, ghost done: seq<Json>)
      returns (ok: bool)
      requires g.Valid() && IsPart(value, part)
      requires Grown(g, value, before, definitions) && PartsCovered(g, done, definitions.Keys)
      modifies this
      ensures ok ==> Grown(g, value, before, definitions) && PartsCovered(g, done + [part], definitions.Keys)
      ensures !ok ==> Broken(g, value)
      decreases g.names - definitions.Keys, value, 0
    {
      ghost var middle := definitions;
      PartRefs(value, part);
      PartSmaller(value, part);
      ok := Visit(part);
      if ok {
        GrownWithin(g, part, value, middle, definitions);
        GrownTwice(g, value, before, middle, definitions);
        PartsCoveredSnoc(g, done, part, middle.Keys, definitions.Keys);
      } else {
        BrokenWithin(g, part, value);
      }
    }

    method VisitParts(value: Json, parts: seq<Json>) returns (ok: bool)
      requires g.Valid() && forall part :: part in parts ==> IsPart(value, part)
      modifies this
      ensures ok ==> Grown(g, value, old(definitions), definitions) && PartsCovered(g, parts, definitions.Keys)
      ensures !ok ==> Broken(g, value)
      decreases g.names - definitions.Keys, value, 1
    {
      for i := 0 to |parts|
        invariant Grown(g, value, old(definitions), definitions)
        invariant PartsCovered(g, parts[..i], definitions.Keys)
      {
        ok := VisitPart(parts[i], value, old(definitions), parts[..i]);
        if !ok {
          return;
        }
        assert parts[..i] + [parts[i]] == parts[..i + 1];
      }
      assert parts[..|parts|] == parts;
      ok := true;
    }

    /** Follows the value's own reference, once per component. */
    method VisitRef(value: Json, ref: Json) returns (ok: bool)
      requires g.Valid() && value.Obj? && Lookup(value.fields, REF) == Some(ref)
      modifies this
      ensures ok ==> Grown(g, value, old(definitions), definitions) && RefDefined(g, value, definitions.Keys)
      ensures !ok ==> Broken(g, value)
      decreases g.names - definitions.Keys, value, 0
    {
      var name := g.nameOf(ref);
      assert ref in RefsIn(value);
      if name.None? {
        return false;
      }
      assert Mentions(g, value, name.value);
      if name.value !in definitions {
        var target := g.target(name.value);
        definitions := definitions[name.value := target];
        assert name.value in g.names - old(definitions.Keys);
        ok := Visit(target);
        if ok {
          GrownThrough(g, value, name.value, old(definitions), definitions);
        } else {
          BrokenThrough(g, value, name.value);
        }
      } else {
        ok := true;
      }
    }
  }

  ghost predicate PartsCovered(g: Graph, parts: seq<Json>, names: set<string>) {
    forall part :: part in parts ==> Covered(g, part, names)
  }

  lemma PartsCoveredSnoc(g: Graph, parts: seq<Json>, part: Json, before: set<string>, names: set<string>)
    requires PartsCovered(g, parts, before) && before <= names && Covered(g, part, names)
    ensures PartsCovered(g, parts + [part], names)
  {}

  /** The children of an object that a visit descends into. */
  function Children(fields: seq<Field>): (parts: seq<Json>)
    ensures forall field :: field in fields && field.key != REF ==> field.value in parts
    ensures forall part :: part in parts ==> exists field :: field in fields && field.key != REF && field.value == part
  {
    if fields == [] then []
    else
      var last := fields[|fields| - 1];
      assert fields == fields[..|fields| - 1] + [last];
      Children(fields[..|fields| - 1]) + if last.key != REF then [last.value] else []
  }

  lemma ArrCovered(g: Graph, value: Json, names: set<string>)
    requires value.Arr? && PartsCovered(g, value.items, names)
    ensures Covered(g, value, names)
  {}

  lemma ObjCovered(g: Graph, value: Json, names: set<string>)
    requires value.Obj? && RefDefined(g, value, names) && PartsCovered(g, Children(value.fields), names)
    ensures Covered(g, value, names)
  {}

  /** The value's own reference, if it has one, is supported and defined. */
  ghost predicate RefDefined(g: Graph, value: Json, names: set<string>)
    requires value.Obj?
  {
    var ref := Lookup(value.fields, REF);
    ref.Some? ==> g.nameOf(ref.value).Some? && g.nameOf(ref.value).value in names
  }

  /** The parts a visit descends into. */
  ghost predicate IsPart(value: Json, part: Json) {
    match value
    case Arr(items) => part in items
    case Obj(fields) => exists field :: field in fields && field.key != REF && field.value == part
    case _ => false
  }

  lemma PartRefs(value: Json, part: Json)
    requires IsPart(value, part)
    ensures RefsIn(part) <= RefsIn(value)
  {}

  lemma PartSmaller(value: Json, part: Json)
    requires IsPart(value, part)
    ensures value decreases to part
  {
    match value
    case Arr(items) =>
      var i :| 0 <= i < |items| && items[i] == part;
    case Obj(fields) =>
      var field :| field in fields && field.key != REF && field.value == part;
      var i :| 0 <= i < |fields| && fields[i] == field;
  }

  /** Terminates on every document, cyclic ones included. It fails exactly when a
      refused reference can be met; otherwise it defines exactly the reachable
      components, each as the document has it. */
  method SchemaContractAt(document: Json, schema: Json, home: Home) returns (r: Option<map<string, Json>>)
    requires '/' !in home.first && '/' !in home.second
    ensures var g := GraphOf(document, home);
            && (r.None? <==> Broken(g, schema))
            && (r.Some? ==> forall name :: name in r.value <==> Reachable(g, schema, name))
            && (r.Some? ==> forall name :: name in r.value ==> r.value[name] == Target(document, home, name))
  {
    GraphOfDocument(document, home);
    var closure := new Closure(GraphOf(document, home));
    var ok := closure.Visit(schema);
    if ok {
      AllReached(closure.g, schema, closure.definitions);
      return Some(closure.definitions);
    }
    r := None;
  }

  /** The exporter's closure: components are kept under "components/schemas". */
  method SchemaContract(document: Json, schema: Json) returns (r: Option<map<string, Json>>)
    ensures var g := GraphOf(document, COMPONENT_SCHEMAS);
            && (r.None? <==> Broken(g, schema))
            && (r.Some? ==> forall name :: name in r.value <==> Reachable(g, schema, name))
            && (r.Some? ==> forall name :: name in r.value ==> r.value[name] == Target(document, COMPONENT_SCHEMAS, name))
  {
    r := SchemaContractAt(document, schema, COMPONENT_SCHEMAS);
  }

  lemma AllReached(g: Graph, schema: Json, definitions: map<string, Json>)
    requires Grown(g, schema, map[], definitions)
    requires Covered(g, schema, definitions.Keys)
    ensures forall name :: Reachable(g, schema, name) ==> name in definitions
    ensures !Broken(g, schema)
  {
    forall name | Reachable(g, schema, name) ensures name in definitions {
      var path :| IsPath(g, schema, path) && path[|path| - 1] == name;
      CoveredClosed(g, schema, definitions.Keys, path);
    }
  }
}
