/**
 * Endpoint extraction (tester/parser.py): flattens the Paths Object of an
 * already-decoded OpenAPI 3.0 document into endpoint records, resolving the
 * JSON request-body schema through at most one `$ref` into
 * `components.schemas`.
 */
module Parser {
  import opened Wrappers
  import opened Text
  import opened Json
  import opened Seqs

  /**
   * One (path, method) pair of the Paths Object; `verb` is the upper-cased
   * method key and `requestBodySchema` is `None` when there is none.
   */
  datatype Endpoint = Endpoint(
    path: string,
    verb: string,
    summary: Json,
    parameters: Json,
    requestBodySchema: Option<Json>)

  /** `components` is absent or a dict, so `.get('schemas', {})` can be called on it. */
  predicate ComponentsReadable(spec: Json)
    requires spec.JObj?
  {
    match Lookup(spec.members, "components")
    case None => true
    case Some(c) => c.JObj?
  }

  /** The schema registry: `spec.get('components', {}).get('schemas', {})`. */
  function SchemasOf(spec: Json): (r: Json)
    requires spec.JObj? && ComponentsReadable(spec)
    ensures Lookup(spec.members, "components").None? ==> r == EmptyObject
    ensures Lookup(spec.members, "components").Some? ==>
      r == Lookup(Lookup(spec.members, "components").value.members, "schemas").GetOr(EmptyObject)
  {
    var components := Lookup(spec.members, "components").GetOr(EmptyObject);
    Lookup(components.members, "schemas").GetOr(EmptyObject)
  }

  /**
   * `_get_schema_from_ref`: the registry entry named by the last `/`-segment
   * of the reference, `{}` when there is none. A reference that is not a
   * string, or a registry that is not a dict, raises `AttributeError`
   * inside the `try`, which also yields `{}`.
   */
  function SchemaFromRef(ref: Json, schemas: Json): (r: Json)
    ensures !ref.JStr? || !schemas.JObj? ==> r == EmptyObject
  {
    if ref.JStr? && schemas.JObj? then Lookup(schemas.members, LastSegment(ref.s)).GetOr(EmptyObject)
    else EmptyObject
  }

  /** A reference `prefix/name` resolves to the registry entry `name`, or `{}` when none is registered. */
  lemma RefResolvesByName(prefix: string, name: string, schemas: seq<(string, Json)>)
    requires '/' !in name
    ensures SchemaFromRef(JStr(prefix + "/" + name), JObj(schemas)) == Lookup(schemas, name).GetOr(EmptyObject)
    ensures (forall i :: 0 <= i < |schemas| ==> schemas[i].0 != name) ==>
      SchemaFromRef(JStr(prefix + "/" + name), JObj(schemas)) == EmptyObject
  {
    LastSegmentAfterSlash(prefix, name);
  }

  /** `requestBody['content']['application/json']['schema']`, `None` where a step raises. */
  function MediaSchema(requestBody: Json): Option<Json> {
    match Index(requestBody, "content")
    case None => None
    case Some(content) =>
      match Index(content, "application/json")
      case None => None
      case Some(media) => Index(media, "schema")
  }

  /**
   * The request-body schema of one operation: `None` unless `requestBody`
   * is truthy and carries a JSON schema; a schema with a `$ref` is replaced
   * by the registry entry it names, any other schema is used as it is.
   */
  function RequestBodySchema(operation: seq<(string, Json)>, schemas: Json): Option<Json> {
    var requestBody := Lookup(operation, "requestBody").GetOr(JNull);
    if !Truthy(requestBody) then None
    else
      match MediaSchema(requestBody)
      case None => None
      case Some(schema) =>
        match Index(schema, "$ref")
        case Some(ref) => Some(SchemaFromRef(ref, schemas))
        case None => Some(schema)
  }

  /** An operation without a truthy `requestBody` has no body schema. */
  lemma NoBodyNoSchema(operation: seq<(string, Json)>, schemas: Json)
    requires forall i :: 0 <= i < |operation| ==> operation[i].0 != "requestBody" || !Truthy(operation[i].1)
    ensures RequestBodySchema(operation, schemas).None?
  {
    var r := Lookup(operation, "requestBody");
    if r.Some? {
      var i :| 0 <= i < |operation| && operation[i] == ("requestBody", r.value);
    }
  }

  /** Any operation whose truthy body has a JSON schema without `$ref` yields that inline schema. */
  lemma InlineSchemaUsed(operation: seq<(string, Json)>, requestBody: Json, schema: Json, schemas: Json)
    requires Lookup(operation, "requestBody") == Some(requestBody) && Truthy(requestBody)
    requires MediaSchema(requestBody) == Some(schema)
    requires Index(schema, "$ref").None?
    ensures RequestBodySchema(operation, schemas) == Some(schema)
  {
  }

  /** Any operation whose truthy body has a JSON schema with a `$ref` yields what the reference resolves to. */
  lemma RefSchemaResolved(operation: seq<(string, Json)>, requestBody: Json, schema: Json, ref: Json, schemas: Json)
    requires Lookup(operation, "requestBody") == Some(requestBody) && Truthy(requestBody)
    requires MediaSchema(requestBody) == Some(schema)
    requires Index(schema, "$ref") == Some(ref)
    ensures RequestBodySchema(operation, schemas) == Some(SchemaFromRef(ref, schemas))
  {
  }

  /** A body schema `{"$ref": prefix/name, ...}` yields the registry entry `name`, or `{}` when none is registered. */
  lemma RefSchemaByName(operation: seq<(string, Json)>, requestBody: Json, schema: Json,
                        prefix: string, name: string, schemas: seq<(string, Json)>)
    requires Lookup(operation, "requestBody") == Some(requestBody) && Truthy(requestBody)
    requires MediaSchema(requestBody) == Some(schema)
    requires Index(schema, "$ref") == Some(JStr(prefix + "/" + name)) && '/' !in name
    ensures RequestBodySchema(operation, JObj(schemas)) == Some(Lookup(schemas, name).GetOr(EmptyObject))
  {
    RefSchemaResolved(operation, requestBody, schema, JStr(prefix + "/" + name), JObj(schemas));
    RefResolvesByName(prefix, name, schemas);
  }

  /** A body with no `content`, media type or `schema` key yields no schema, and the parse goes on. */
  lemma IncompleteBodyNoSchema(operation: seq<(string, Json)>, requestBody: Json, schemas: Json)
    requires Lookup(operation, "requestBody") == Some(requestBody)
    requires MediaSchema(requestBody).None?
    ensures RequestBodySchema(operation, schemas).None?
  {
  }

  /** The endpoint record for one method key of one path. */
  function EndpointOf(path: string, methodKey: string, operation: Json, schemas: Json): (e: Endpoint)
    requires operation.JObj?
    ensures e.path == path && e.verb == Upper(methodKey)
    ensures Lookup(operation.members, "summary").None? ==> e.summary == JStr("No summary")
    ensures Lookup(operation.members, "parameters").None? ==> e.parameters == JArr([])
    ensures Lookup(operation.members, "summary").Some? ==> e.summary == Lookup(operation.members, "summary").value
    ensures Lookup(operation.members, "parameters").Some? ==> e.parameters == Lookup(operation.members, "parameters").value
    ensures e.requestBodySchema == RequestBodySchema(operation.members, schemas)
  {
    Endpoint(
      path,
      Upper(methodKey),
      Lookup(operation.members, "summary").GetOr(JStr("No summary")),
      Lookup(operation.members, "parameters").GetOr(JArr([])),
      RequestBodySchema(operation.members, schemas))
  }

  /** A Path Item whose every value is an Operation Object (a dict). */
  predicate IsPathItem(item: Json) {
    item.JObj? && DistinctKeys(item.members) &&
    forall k :: 0 <= k < |item.members| ==> item.members[k].1.JObj?
  }

  predicate PathItems(paths: seq<(string, Json)>) {
    forall i {:trigger paths[i]} :: 0 <= i < |paths| ==> IsPathItem(paths[i].1)
  }

  predicate IsPaths(paths: seq<(string, Json)>) {
    DistinctKeys(paths) && PathItems(paths)
  }

  /**
   * A document `parse_endpoints` can walk: a dict whose `paths`, if present,
   * maps each path to a dict of Operation Objects; anything else makes
   * `.items()` or `.get` raise outside any `try`.
   */
  predicate Parsable(spec: Json) {
    && spec.JObj?
    && ComponentsReadable(spec)
    && match Lookup(spec.members, "paths")
       case None => true
       case Some(p) => p.JObj? && IsPaths(p.members)
  }

  function PathsOf(spec: Json): (r: seq<(string, Json)>)
    requires Parsable(spec)
    ensures IsPaths(r)
  {
    Lookup(spec.members, "paths").GetOr(EmptyObject).members
  }

  /** The record of one (method key, operation) entry of `path`. */
  function EndpointMaker(path: string, schemas: Json): ((string, Json)) --> Endpoint {
    (m: (string, Json)) requires m.1.JObj? => EndpointOf(path, m.0, m.1, schemas)
  }

  /** The endpoints of one path, one per method key, in key order. */
  function PathEndpoints(path: string, methods: seq<(string, Json)>, schemas: Json): (r: seq<Endpoint>)
    requires forall k :: 0 <= k < |methods| ==> methods[k].1.JObj?
    ensures |r| == |methods|
  {
    MapBackAt(EndpointMaker(path, schemas), methods);
    MapBack(EndpointMaker(path, schemas), methods)
  }

  /** The endpoints of all paths: paths outer, methods inner. */
  function PathsEndpoints(paths: seq<(string, Json)>, schemas: Json): seq<Endpoint>
    requires PathItems(paths)
    decreases |paths|
  {
    if paths == [] then []
    else
      var last := paths[|paths| - 1];
      PathsEndpoints(paths[..|paths| - 1], schemas) + PathEndpoints(last.0, last.1.members, schemas)
  }

  /** The number of (path, method) pairs. */
  function OperationCount(paths: seq<(string, Json)>): nat
    requires PathItems(paths)
    decreases |paths|
  {
    if paths == [] then 0
    else OperationCount(paths[..|paths| - 1]) + |paths[|paths| - 1].1.members|
  }

  /** What one call of `parse_endpoints` appends. */
  function Extract(spec: Json, schemas: Json): seq<Endpoint>
    requires Parsable(spec)
  {
    PathsEndpoints(PathsOf(spec), schemas)
  }

  lemma PathEndpointsAt(path: string, methods: seq<(string, Json)>, schemas: Json, k: nat)
    requires forall j :: 0 <= j < |methods| ==> methods[j].1.JObj?
    requires k < |methods|
    ensures PathEndpoints(path, methods, schemas)[k] == EndpointOf(path, methods[k].0, methods[k].1, schemas)
  {
    MapBackAt(EndpointMaker(path, schemas), methods);
  }

  lemma PathEndpointsStep(path: string, methods: seq<(string, Json)>, schemas: Json, j: nat)
    requires forall k :: 0 <= k < |methods| ==> methods[k].1.JObj?
    requires j < |methods|
    ensures PathEndpoints(path, methods[..j + 1], schemas)
         == PathEndpoints(path, methods[..j], schemas) + [EndpointOf(path, methods[j].0, methods[j].1, schemas)]
  {
    MapBackStep(EndpointMaker(path, schemas), methods, j);
  }

  lemma PathsEndpointsStep(paths: seq<(string, Json)>, schemas: Json)
    requires PathItems(paths) && paths != []
    ensures PathsEndpoints(paths, schemas)
         == PathsEndpoints(paths[..|paths| - 1], schemas)
          + PathEndpoints(paths[|paths| - 1].0, paths[|paths| - 1].1.members, schemas)
  {
  }

  lemma PathsEndpointsPrefixStep(paths: seq<(string, Json)>, schemas: Json, i: nat)
    requires PathItems(paths) && i < |paths|
    ensures PathsEndpoints(paths[..i + 1], schemas)
         == PathsEndpoints(paths[..i], schemas) + PathEndpoints(paths[i].0, paths[i].1.members, schemas)
  {
    assert paths[..i + 1][..i] == paths[..i];
    PathsEndpointsStep(paths[..i + 1], schemas);
  }

  lemma {:induction false} PathsEndpointsAppend(a: seq<(string, Json)>, b: seq<(string, Json)>, schemas: Json)
    requires PathItems(a) && PathItems(b)
    ensures PathsEndpoints(a + b, schemas) == PathsEndpoints(a, schemas) + PathsEndpoints(b, schemas)
    decreases |b|
  {
    if b == [] {
      assert a + b == a;
    } else {
      var b' := b[..|b| - 1];
      assert (a + b)[..|a + b| - 1] == a + b';
      assert (a + b)[|a + b| - 1] == b[|b| - 1];
      PathsEndpointsAppend(a, b', schemas);
      PathsEndpointsStep(a + b, schemas);
      PathsEndpointsStep(b, schemas);
      var last := b[|b| - 1];
      ConcatAssoc(PathsEndpoints(a, schemas), PathsEndpoints(b', schemas), PathEndpoints(last.0, last.1.members, schemas));
    }
  }

  lemma {:induction false} PathsEndpointsLength(paths: seq<(string, Json)>, schemas: Json)
    requires PathItems(paths)
    ensures |PathsEndpoints(paths, schemas)| == OperationCount(paths)
    decreases |paths|
  {
    if paths != [] {
      PathsEndpointsLength(paths[..|paths| - 1], schemas);
      PathsEndpointsStep(paths, schemas);
    }
  }

  /** The endpoints of all paths are those before path `i`, then path `i`'s, then those after it. */
  lemma PathsEndpointsSplit(paths: seq<(string, Json)>, schemas: Json, i: nat)
    requires PathItems(paths) && i < |paths|
    ensures PathsEndpoints(paths, schemas)
         == PathsEndpoints(paths[..i], schemas)
          + PathEndpoints(paths[i].0, paths[i].1.members, schemas)
          + PathsEndpoints(paths[i + 1..], schemas)
  {
    assert paths == paths[..i + 1] + paths[i + 1..];
    PathsEndpointsAppend(paths[..i + 1], paths[i + 1..], schemas);
    PathsEndpointsPrefixStep(paths, schemas, i);
  }

  /**
   * The result lists one endpoint per (path, method) pair, paths outer and
   * methods inner: the `k`-th method of the `i`-th path comes right after
   * the endpoints of the paths before it.
   */
  lemma ExtractAt(paths: seq<(string, Json)>, schemas: Json, i: nat, k: nat)
    requires PathItems(paths)
    requires i < |paths| && k < |paths[i].1.members|
    ensures |PathsEndpoints(paths, schemas)| == OperationCount(paths)
    ensures OperationCount(paths[..i]) + k < OperationCount(paths)
    ensures PathsEndpoints(paths, schemas)[OperationCount(paths[..i]) + k]
         == EndpointOf(paths[i].0, paths[i].1.members[k].0, paths[i].1.members[k].1, schemas)
  {
    var methods := paths[i].1.members;
    var e1, e2, e3 := PathsEndpoints(paths[..i], schemas), PathEndpoints(paths[i].0, methods, schemas), PathsEndpoints(paths[i + 1..], schemas);
    PathsEndpointsSplit(paths, schemas, i);
    PathsEndpointsLength(paths[..i], schemas);
    PathsEndpointsLength(paths, schemas);
    PathEndpointsAt(paths[i].0, methods, schemas, k);
    IndexMiddle(e1, e2, e3, k);
  }

  /** A Python list of endpoint records: a mutable object that callers share by reference. */
  class EndpointList {
    var items: seq<Endpoint>

    constructor ()
      ensures items == []
    {
      items := [];
    }
  }

  /** APIParser: the decoded document, its schema registry and the accumulated endpoint list. */
  class ApiParser {
    const spec: Json
    const schemas: Json
    const endpoints: EndpointList

    constructor (spec: Json)
      requires spec.JObj? && ComponentsReadable(spec)
      ensures this.spec == spec && schemas == SchemasOf(spec)
      ensures fresh(endpoints) && endpoints.items == []
    {
      this.spec := spec;
      this.schemas := SchemasOf(spec);
      endpoints := new EndpointList();
    }

    /** The inner loop of `parse_endpoints`: one record per method key of `path`. */
    method AppendPath(path: string, methods: seq<(string, Json)>)
      requires forall k :: 0 <= k < |methods| ==> methods[k].1.JObj?
      modifies endpoints
      ensures endpoints.items == old(endpoints.items) + PathEndpoints(path, methods, schemas)
    {
      var j := 0;
      while j < |methods|
        invariant 0 <= j <= |methods|
        invariant endpoints.items == old(endpoints.items) + PathEndpoints(path, methods[..j], schemas)
      {
        endpoints.items := endpoints.items + [EndpointOf(path, methods[j].0, methods[j].1, schemas)];
        PathEndpointsStep(path, methods, schemas, j);
        j := j + 1;
      }
      assert methods[..j] == methods;
    }

    /** The outer loop of `parse_endpoints`: the records of every path in turn. */
    method AppendPaths(paths: seq<(string, Json)>)
      requires PathItems(paths)
      modifies endpoints
      ensures endpoints.items == old(endpoints.items) + PathsEndpoints(paths, schemas)
    {
      ghost var before := endpoints.items;
      ghost var registry := schemas;
      var i := 0;
      while i < |paths|
        invariant 0 <= i <= |paths|
        invariant endpoints.items == before + PathsEndpoints(paths[..i], registry)
      {
        AppendPath(paths[i].0, paths[i].1.members);
        PathsEndpointsPrefixStep(paths, registry, i);
        ConcatAssoc(before, PathsEndpoints(paths[..i], registry), PathEndpoints(paths[i].0, paths[i].1.members, registry));
        i := i + 1;
      }
      assert paths[..i] == paths;
    }

    /**
     * `parse_endpoints`: appends one record per (path, method) to the stored
     * list and returns that list itself, not a copy.
     */
    method ParseEndpoints() returns (result: EndpointList)
      requires Parsable(spec)
      modifies endpoints
      ensures result == endpoints
      ensures endpoints.items == old(endpoints.items) + Extract(spec, schemas)
    {
      AppendPaths(PathsOf(spec));
      result := endpoints;
    }
  }

  /**
   * A fresh parser returns the document's endpoints. The second call
   * returns the same list object, now holding the records twice, so the
   * list the first call returned holds them twice as well.
   */
  method ParseTwice(spec: Json) returns (first: EndpointList, firstItems: seq<Endpoint>, second: EndpointList)
    requires Parsable(spec)
    ensures firstItems == Extract(spec, SchemasOf(spec))
    ensures first == second
    ensures first.items == firstItems + firstItems
  {
    var parser := new ApiParser(spec);
    first := parser.ParseEndpoints();
    firstItems := first.items;
    second := parser.ParseEndpoints();
  }
}
