/**
 * The tool-provider document validator. A provider describes its API as a
 * server URL, a description and `paths`: path -> HTTP method -> operation
 * (description, operationId, parameters). Validation is a structural pass
 * in zod's manner (every field checked, every issue collected, strings
 * trimmed) followed by a scan that rejects a repeated operationId.
 */
module OpenapiSchema {
  import opened Wrappers
  import opened Json
  import opened Text
  import opened Exception

  // ---------------------------------------------------------------------
  // The closed value sets

  datatype Method = Get | Post | Put | Delete | Patch
  datatype Location = InPath | InQuery | InHeader | InCookie | InBody
  datatype ParamType = StringType | IntegerType | FloatType | BooleanType

  const AllowedMethods: seq<string> := ["get", "post", "put", "delete", "patch"]
  const AllowedParameterLocations: seq<string> := ["path", "query", "header", "cookie", "body"]
  const AllowedParameterType: seq<string> := ["string", "integer", "float", "boolean"]

  function MethodName(m: Method): string {
    match m
    case Get => "get"
    case Post => "post"
    case Put => "put"
    case Delete => "delete"
    case Patch => "patch"
  }

  function LocationName(l: Location): string {
    match l
    case InPath => "path"
    case InQuery => "query"
    case InHeader => "header"
    case InCookie => "cookie"
    case InBody => "body"
  }

  function ParamTypeName(t: ParamType): string {
    match t
    case StringType => "string"
    case IntegerType => "integer"
    case FloatType => "float"
    case BooleanType => "boolean"
  }

  /** The method key `s` names, if it is one of the allowed five (case-sensitive). */
  function ParseMethod(s: string): (r: Option<Method>)
    ensures r.Some? <==> s in AllowedMethods
    ensures r.Some? ==> MethodName(r.value) == s
  {
    if s == "get" then Some(Get)
    else if s == "post" then Some(Post)
    else if s == "put" then Some(Put)
    else if s == "delete" then Some(Delete)
    else if s == "patch" then Some(Patch)
    else None
  }

  function ParseLocation(s: string): (r: Option<Location>)
    ensures r.Some? <==> s in AllowedParameterLocations
    ensures r.Some? ==> LocationName(r.value) == s
  {
    if s == "path" then Some(InPath)
    else if s == "query" then Some(InQuery)
    else if s == "header" then Some(InHeader)
    else if s == "cookie" then Some(InCookie)
    else if s == "body" then Some(InBody)
    else None
  }

  function ParseParamType(s: string): (r: Option<ParamType>)
    ensures r.Some? <==> s in AllowedParameterType
    ensures r.Some? ==> ParamTypeName(r.value) == s
  {
    if s == "string" then Some(StringType)
    else if s == "integer" then Some(IntegerType)
    else if s == "float" then Some(FloatType)
    else if s == "boolean" then Some(BooleanType)
    else None
  }

  /** Every member's name is allowed and parses back to that member. */
  lemma NamesRoundTrip(m: Method, l: Location, t: ParamType)
    ensures MethodName(m) in AllowedMethods && ParseMethod(MethodName(m)) == Some(m)
    ensures LocationName(l) in AllowedParameterLocations && ParseLocation(LocationName(l)) == Some(l)
    ensures ParamTypeName(t) in AllowedParameterType && ParseParamType(ParamTypeName(t)) == Some(t)
  {
  }

  // ---------------------------------------------------------------------
  // The validated document

  datatype Parameter = Parameter(name: string, location: Location, description: string,
                                 required: bool, paramType: ParamType)
  datatype Operation = Operation(description: string, operationId: string, parameters: seq<Parameter>)
  /** `paths` keeps the input's key order, and each path's methods theirs. */
  datatype Openapi = Openapi(server: string, description: string,
                             paths: seq<(string, seq<(Method, Operation)>)>)

  // ---------------------------------------------------------------------
  // Issues and messages

  const NameMessage := "name 应是一个非空的字符串"
  const InMessage := "in 应是 path, query, header, cookie, body 其中之一"
  const DescriptionMessage := "description 应是一个非空的字符串"
  const RequiredMessage := "required 应是一个布尔值"
  const TypeMessage := "type 应是 string, integer, float, boolean 其中之一"
  const ParametersMessage := "parameters 应是一个对象数组"
  const ServerMessage := "server 应是一个合法的 url"
  const MethodMessage := "method 应是 get, post, put, delete, patch 其中之一"
  const OperationIdMessage := "operationId 应是一个非空的字符串"
  const PathsMessage := "paths 应是一个对象"
  const FormatErrorMessage := "openapi schema 格式错误"

  function DuplicateMessage(id: string): string {
    "operationId " + id + " 重复"
  }

  /** The type a field without a custom message expected. */
  datatype Expected = ExpectString | ExpectObject

  /**
   * One zod issue: a message the schema sets, or zod's own type-error
   * message (whose text belongs to zod and is rendered by a parameter).
   */
  datatype Issue = Custom(message: string) | TypeError(expected: Expected, received: Received)

  /** The outcome of checking one part of the input. */
  datatype Checked<T> = Accepted(value: T) | Rejected(issues: seq<Issue>)

  function IssuesOf<T>(c: Checked<T>): seq<Issue> {
    if c.Accepted? then [] else c.issues
  }

  /** The issues of each element, one list per element, in index order. */
  function IssueLists<A, T>(xs: seq<A>, check: A -> Checked<T>): seq<seq<Issue>> {
    seq(|xs|, i requires 0 <= i < |xs| => IssuesOf(check(xs[i])))
  }

  /** The lists one after another. */
  function Flatten(ls: seq<seq<Issue>>): seq<Issue> {
    if |ls| == 0 then [] else ls[0] + Flatten(ls[1..])
  }

  /** Elements that are all accepted contribute no issues. */
  lemma {:induction false} AcceptedHaveNoIssues<A, T>(xs: seq<A>, check: A -> Checked<T>)
    requires forall i :: 0 <= i < |xs| ==> check(xs[i]).Accepted?
    ensures Flatten(IssueLists(xs, check)) == []
  {
    if |xs| > 0 {
      assert IssueLists(xs, check)[1..] == IssueLists(xs[1..], check);
      AcceptedHaveNoIssues(xs[1..], check);
    }
  }

  /**
   * Checks every element in order; accepted when all are, with the values in
   * order, otherwise rejected with all the elements' issues in order.
   */
  function CheckEach<A, T>(xs: seq<A>, check: A -> Checked<T>): (r: Checked<seq<T>>)
    ensures r.Accepted? <==> forall i :: 0 <= i < |xs| ==> check(xs[i]).Accepted?
    ensures r.Accepted? ==> |r.value| == |xs|
    ensures r.Accepted? ==> forall i :: 0 <= i < |xs| ==> r.value[i] == check(xs[i]).value
    ensures r.Rejected? ==> r.issues == Flatten(IssueLists(xs, check))
    ensures r.Rejected? ==> forall i, x :: 0 <= i < |xs| && x in IssuesOf(check(xs[i])) ==> x in r.issues
  {
    if |xs| == 0 then Accepted([])
    else
      var h := check(xs[0]);
      var t := CheckEach(xs[1..], check);
      assert forall i :: 1 <= i < |xs| ==> xs[i] == xs[1..][i - 1];
      assert IssueLists(xs, check)[1..] == IssueLists(xs[1..], check);
      assert t.Accepted? ==> Flatten(IssueLists(xs[1..], check)) == [] by {
        if t.Accepted? {
          AcceptedHaveNoIssues(xs[1..], check);
        }
      }
      if h.Accepted? && t.Accepted? then Accepted([h.value] + t.value)
      else Rejected(IssuesOf(h) + IssuesOf(t))
  }

  /** Elements that each check to a given value make the whole check give those values. */
  lemma CheckEachAccepts<A, T>(xs: seq<A>, check: A -> Checked<T>, vs: seq<T>)
    requires |vs| == |xs| && forall i :: 0 <= i < |xs| ==> check(xs[i]) == Accepted(vs[i])
    ensures CheckEach(xs, check) == Accepted(vs)
  {
    var r := CheckEach(xs, check);
    assert r.Accepted?;
    assert r.value == vs;
  }

  // ---------------------------------------------------------------------
  // Field checks

  /** `z.string().trim().nonempty({ message })`. */
  function NonBlankString(v: Option<Json>, message: string): (r: Checked<string>)
    ensures r.Accepted? <==> v.Some? && v.value.JString? && Trim(v.value.s) != ""
    ensures r.Accepted? ==> r.value == Trim(v.value.s) && r.value != "" && IsTrimmed(r.value)
    ensures r.Rejected? && v.Some? && v.value.JString? ==> r.issues == [Custom(message)]
  {
    match v
    case Some(JString(s)) =>
      var t := Trim(s);
      if t != "" then Accepted(t) else Rejected([Custom(message)])
    case _ => Rejected([TypeError(ExpectString, KindOf(v))])
  }

  /** `z.enum(ALLOWED_PARAMETER_LOCATIONS, { message })`: the message covers a wrong type and a wrong value. */
  function LocationField(v: Option<Json>): (r: Checked<Location>)
    ensures r.Accepted? <==> v.Some? && v.value.JString? && v.value.s in AllowedParameterLocations
    ensures r.Accepted? ==> LocationName(r.value) == v.value.s
    ensures r.Rejected? ==> r.issues == [Custom(InMessage)]
  {
    match v
    case Some(JString(s)) =>
      var l := ParseLocation(s);
      if l.Some? then Accepted(l.value) else Rejected([Custom(InMessage)])
    case _ => Rejected([Custom(InMessage)])
  }

  /** `z.enum(ALLOWED_PARAMETER_TYPE, { message })`: the message covers a wrong type and a wrong value. */
  function ParamTypeField(v: Option<Json>): (r: Checked<ParamType>)
    ensures r.Accepted? <==> v.Some? && v.value.JString? && v.value.s in AllowedParameterType
    ensures r.Accepted? ==> ParamTypeName(r.value) == v.value.s
    ensures r.Rejected? ==> r.issues == [Custom(TypeMessage)]
  {
    match v
    case Some(JString(s)) =>
      var t := ParseParamType(s);
      if t.Some? then Accepted(t.value) else Rejected([Custom(TypeMessage)])
    case _ => Rejected([Custom(TypeMessage)])
  }

  /** `z.boolean({ message })`. */
  function BooleanField(v: Option<Json>, message: string): (r: Checked<bool>)
    ensures r.Accepted? <==> v.Some? && v.value.JBool?
    ensures r.Accepted? ==> r.value == v.value.b
    ensures r.Rejected? ==> r.issues == [Custom(message)]
  {
    match v
    case Some(JBool(b)) => Accepted(b)
    case _ => Rejected([Custom(message)])
  }

  /** `z.string().url({ message })`: the string as given, untrimmed. */
  function ServerField(v: Option<Json>, isUrl: string -> bool): (r: Checked<string>)
    ensures r.Accepted? <==> v.Some? && v.value.JString? && isUrl(v.value.s)
    ensures r.Accepted? ==> r.value == v.value.s
    ensures v.Some? && v.value.JString? && !isUrl(v.value.s) ==> r == Rejected([Custom(ServerMessage)])
  {
    match v
    case Some(JString(s)) => if isUrl(s) then Accepted(s) else Rejected([Custom(ServerMessage)])
    case _ => Rejected([TypeError(ExpectString, KindOf(v))])
  }

  // ---------------------------------------------------------------------
  // Structural checks, outermost last

  /**
   * The five fields of one element of `parameters`, checked in declaration
   * order: accepted when all five pass, with the trimmed strings and the
   * parsed names; otherwise the issues of the failing fields, in that order.
   */
  function ParameterFields(name: Option<Json>, location: Option<Json>, description: Option<Json>,
                           required: Option<Json>, paramType: Option<Json>): (r: Checked<Parameter>)
    ensures r.Accepted? <==>
              NonBlankString(name, NameMessage).Accepted? && LocationField(location).Accepted? &&
              NonBlankString(description, DescriptionMessage).Accepted? &&
              BooleanField(required, RequiredMessage).Accepted? && ParamTypeField(paramType).Accepted?
    ensures r.Accepted? ==>
              r.value.name == Trim(name.value.s) && LocationName(r.value.location) == location.value.s &&
              r.value.description == Trim(description.value.s) && r.value.required == required.value.b &&
              ParamTypeName(r.value.paramType) == paramType.value.s
    ensures r.Rejected? ==>
              r.issues == IssuesOf(NonBlankString(name, NameMessage)) + IssuesOf(LocationField(location)) +
                          IssuesOf(NonBlankString(description, DescriptionMessage)) +
                          IssuesOf(BooleanField(required, RequiredMessage)) + IssuesOf(ParamTypeField(paramType))
  {
    var n := NonBlankString(name, NameMessage);
    var l := LocationField(location);
    var d := NonBlankString(description, DescriptionMessage);
    var r := BooleanField(required, RequiredMessage);
    var t := ParamTypeField(paramType);
    if n.Accepted? && l.Accepted? && d.Accepted? && r.Accepted? && t.Accepted?
    then Accepted(Parameter(n.value, l.value, d.value, r.value, t.value))
    else Rejected(IssuesOf(n) + IssuesOf(l) + IssuesOf(d) + IssuesOf(r) + IssuesOf(t))
  }

  /** One element of `parameters`: anything but an object is a type error. */
  function CheckParameter(v: Json): (r: Checked<Parameter>)
    ensures r.Accepted? ==> v.JObject?
    ensures !v.JObject? ==> r == Rejected([TypeError(ExpectObject, KindOf(Some(v)))])
  {
    match v
    case JObject(e) =>
      ParameterFields(Lookup(e, "name"), Lookup(e, "in"), Lookup(e, "description"),
                      Lookup(e, "required"), Lookup(e, "type"))
    case _ => Rejected([TypeError(ExpectObject, KindOf(Some(v)))])
  }

  /** `z.array(..., { message })`: one parameter per element; anything but an array gets the message. */
  function CheckParameters(v: Option<Json>): (r: Checked<seq<Parameter>>)
    ensures r.Accepted? ==> v.Some? && v.value.JArray? && |r.value| == |v.value.items|
    ensures !(v.Some? && v.value.JArray?) ==> r == Rejected([Custom(ParametersMessage)])
  {
    match v
    case Some(JArray(items)) => CheckEach(items, CheckParameter)
    case _ => Rejected([Custom(ParametersMessage)])
  }

  /**
   * The three fields of an operation, checked in declaration order: the
   * strings come back trimmed, and the issues of the failing fields are
   * reported in that order.
   */
  function OperationFields(description: Option<Json>, operationId: Option<Json>,
                           parameters: Option<Json>): (r: Checked<Operation>)
    ensures r.Accepted? <==>
              NonBlankString(description, DescriptionMessage).Accepted? &&
              NonBlankString(operationId, OperationIdMessage).Accepted? && CheckParameters(parameters).Accepted?
    ensures r.Accepted? ==>
              r.value.description == Trim(description.value.s) && r.value.operationId == Trim(operationId.value.s) &&
              parameters.value.JArray? && |r.value.parameters| == |parameters.value.items|
    ensures r.Rejected? ==>
              r.issues == IssuesOf(NonBlankString(description, DescriptionMessage)) +
                          IssuesOf(NonBlankString(operationId, OperationIdMessage)) +
                          IssuesOf(CheckParameters(parameters))
  {
    var d := NonBlankString(description, DescriptionMessage);
    var o := NonBlankString(operationId, OperationIdMessage);
    var p := CheckParameters(parameters);
    if d.Accepted? && o.Accepted? && p.Accepted?
    then Accepted(Operation(d.value, o.value, p.value))
    else Rejected(IssuesOf(d) + IssuesOf(o) + IssuesOf(p))
  }

  /** One operation object: anything but an object is a type error. */
  function CheckOperation(v: Json): (r: Checked<Operation>)
    ensures r.Accepted? ==> v.JObject?
    ensures !v.JObject? ==> r == Rejected([TypeError(ExpectObject, KindOf(Some(v)))])
  {
    match v
    case JObject(e) => OperationFields(Lookup(e, "description"), Lookup(e, "operationId"), Lookup(e, "parameters"))
    case _ => Rejected([TypeError(ExpectObject, KindOf(Some(v)))])
  }

  /** One method entry of a path: the key is checked first, then the operation. */
  function CheckMethodEntry(entry: (string, Json)): (r: Checked<(Method, Operation)>)
    ensures r.Accepted? <==> entry.0 in AllowedMethods && CheckOperation(entry.1).Accepted?
    ensures r.Accepted? ==> MethodName(r.value.0) == entry.0 && r.value.1 == CheckOperation(entry.1).value
    ensures entry.0 !in AllowedMethods ==> r.Rejected? && [Custom(MethodMessage)] <= r.issues
  {
    var key := ParseMethod(entry.0);
    var operation := CheckOperation(entry.1);
    if key.Some? && operation.Accepted? then Accepted((key.value, operation.value))
    else Rejected((if key.None? then [Custom(MethodMessage)] else []) + IssuesOf(operation))
  }

  /** One entry of `paths`: any key, kept as given, and a record of methods. */
  function CheckPathEntry(entry: (string, Json)): (r: Checked<(string, seq<(Method, Operation)>)>)
    ensures r.Accepted? ==> entry.1.JObject? && r.value.0 == entry.0 && |r.value.1| == |entry.1.entries|
    ensures !entry.1.JObject? ==> r == Rejected([TypeError(ExpectObject, KindOf(Some(entry.1)))])
  {
    match entry.1
    case JObject(methods) =>
      var checked := CheckEach(methods, CheckMethodEntry);
      if checked.Accepted? then Accepted((entry.0, checked.value)) else Rejected(checked.issues)
    case _ => Rejected([TypeError(ExpectObject, KindOf(Some(entry.1)))])
  }

  /** The one key a zod record checks but never sets on the object it builds. */
  const ProtoKey := "__proto__"

  /** The checked entries that become own keys of the record zod builds, in input order. */
  function OwnEntries<T>(entries: seq<(string, T)>): (r: seq<(string, T)>)
    ensures |r| <= |entries|
  {
    if |entries| == 0 then []
    else if entries[0].0 == ProtoKey then OwnEntries(entries[1..])
    else [entries[0]] + OwnEntries(entries[1..])
  }

  /** An entry survives exactly when it is an input entry whose key is not `__proto__`. */
  lemma {:induction false} OwnEntriesMembers<T>(entries: seq<(string, T)>, p: (string, T))
    ensures p in OwnEntries(entries) <==> p in entries && p.0 != ProtoKey
  {
    if |entries| > 0 {
      OwnEntriesMembers(entries[1..], p);
      assert entries == [entries[0]] + entries[1..];
    }
  }

  /** No surviving entry is keyed `__proto__`. */
  lemma {:induction false} OwnEntriesNoProto<T>(entries: seq<(string, T)>)
    ensures forall i :: 0 <= i < |OwnEntries(entries)| ==> OwnEntries(entries)[i].0 != ProtoKey
  {
    if |entries| > 0 {
      OwnEntriesNoProto(entries[1..]);
    }
  }

  /** Without a `__proto__` key nothing is dropped. */
  lemma {:induction false} OwnEntriesUnchanged<T>(entries: seq<(string, T)>)
    requires forall i :: 0 <= i < |entries| ==> entries[i].0 != ProtoKey
    ensures OwnEntries(entries) == entries
  {
    if |entries| > 0 {
      OwnEntriesUnchanged(entries[1..]);
    }
  }

  /**
   * `z.record(z.string(), ..., { message })`: every entry is checked, and the
   * record built holds the checked entries except one keyed `__proto__`;
   * anything but an object gets the message.
   */
  function CheckPaths(v: Option<Json>): (r: Checked<seq<(string, seq<(Method, Operation)>)>>)
    ensures r.Accepted? <==> v.Some? && v.value.JObject? && CheckEach(v.value.entries, CheckPathEntry).Accepted?
    ensures r.Accepted? ==> |r.value| <= |v.value.entries|
    ensures r.Rejected? && v.Some? && v.value.JObject? ==> r.issues == IssuesOf(CheckEach(v.value.entries, CheckPathEntry))
    ensures !(v.Some? && v.value.JObject?) ==> r == Rejected([Custom(PathsMessage)])
  {
    match v
    case Some(JObject(paths)) =>
      var checked := CheckEach(paths, CheckPathEntry);
      if checked.Accepted? then Accepted(OwnEntries(checked.value)) else Rejected(checked.issues)
    case _ => Rejected([Custom(PathsMessage)])
  }

  /**
   * The three top-level fields, checked in declaration order: the server is
   * kept as given, the description trimmed, and the issues of the failing
   * fields are reported in that order.
   */
  function DocumentFields(server: Option<Json>, description: Option<Json>, paths: Option<Json>,
                          isUrl: string -> bool): (r: Checked<Openapi>)
    ensures r.Accepted? <==>
              ServerField(server, isUrl).Accepted? && NonBlankString(description, DescriptionMessage).Accepted? &&
              CheckPaths(paths).Accepted?
    ensures r.Accepted? ==>
              r.value.server == server.value.s && isUrl(r.value.server) &&
              r.value.description == Trim(description.value.s) &&
              paths.value.JObject? && |r.value.paths| <= |paths.value.entries|
    ensures r.Rejected? ==>
              r.issues == IssuesOf(ServerField(server, isUrl)) +
                          IssuesOf(NonBlankString(description, DescriptionMessage)) + IssuesOf(CheckPaths(paths))
  {
    var s := ServerField(server, isUrl);
    var d := NonBlankString(description, DescriptionMessage);
    var p := CheckPaths(paths);
    if s.Accepted? && d.Accepted? && p.Accepted?
    then Accepted(Openapi(s.value, d.value, p.value))
    else Rejected(IssuesOf(s) + IssuesOf(d) + IssuesOf(p))
  }

  /** The whole structural pass (`OpenapiSchema.safeParse`): anything but an object is a type error. */
  function CheckDocument(v: Json, isUrl: string -> bool): (r: Checked<Openapi>)
    ensures r.Accepted? ==> v.JObject?
    ensures !v.JObject? ==> r == Rejected([TypeError(ExpectObject, KindOf(Some(v)))])
  {
    match v
    case JObject(e) => DocumentFields(Lookup(e, "server"), Lookup(e, "description"), Lookup(e, "paths"), isUrl)
    case _ => Rejected([TypeError(ExpectObject, KindOf(Some(v)))])
  }

  // ---------------------------------------------------------------------
  // The operationId scan

  /** The operationIds of some methods, in order. */
  function MethodIds(methods: seq<(Method, Operation)>): (ids: seq<string>)
    ensures |ids| == |methods|
  {
    if |methods| == 0 then [] else [methods[0].1.operationId] + MethodIds(methods[1..])
  }

  /** The ids of one path are its methods' operationIds, one for one and in order. */
  lemma {:induction false} MethodIdsAt(methods: seq<(Method, Operation)>)
    ensures forall j :: 0 <= j < |methods| ==> MethodIds(methods)[j] == methods[j].1.operationId
  {
    if |methods| > 0 {
      MethodIdsAt(methods[1..]);
    }
  }

  /** Every operationId of the document, paths outer and methods inner. */
  function OperationIds(paths: seq<(string, seq<(Method, Operation)>)>): seq<string> {
    if |paths| == 0 then [] else MethodIds(paths[0].1) + OperationIds(paths[1..])
  }

  predicate Distinct(ids: seq<string>) {
    forall i, j :: 0 <= i < j < |ids| ==> ids[i] != ids[j]
  }

  /**
   * The id the scan stops at: walking `ids` with `seen` already collected,
   * the first id met that is already in the set.
   */
  function FirstRepeatFrom(ids: seq<string>, seen: set<string>): Option<string> {
    if |ids| == 0 then None
    else if ids[0] in seen then Some(ids[0])
    else FirstRepeatFrom(ids[1..], seen + {ids[0]})
  }

  function FirstRepeat(ids: seq<string>): Option<string> {
    FirstRepeatFrom(ids, {})
  }

  /**
   * The duplicate-operationId scan of `validateOpenapiSchema`: paths outer, methods inner, each id added to a
   * set, stopping at the first id already in it.
   */
  method FindDuplicateOperationId(doc: Openapi) returns (duplicate: Option<string>)
    ensures duplicate == FirstRepeat(OperationIds(doc.paths))
  {
    var paths := doc.paths;
    var operationIds: set<string> := {};
    var i := 0;
    while i < |paths|
      invariant 0 <= i <= |paths|
      invariant FirstRepeat(OperationIds(paths)) == FirstRepeatFrom(OperationIds(paths[i..]), operationIds)
    {
      var methods := paths[i].1;
      assert OperationIds(paths[i..]) == MethodIds(methods) + OperationIds(paths[i + 1..]) by {
        assert paths[i..][1..] == paths[i + 1..];
      }
      var j := 0;
      while j < |methods|
        invariant 0 <= j <= |methods|
        invariant FirstRepeat(OperationIds(paths))
               == FirstRepeatFrom(MethodIds(methods[j..]) + OperationIds(paths[i + 1..]), operationIds)
      {
        var operationId := methods[j].1.operationId;
        assert MethodIds(methods[j..]) == [operationId] + MethodIds(methods[j + 1..]) by {
          assert methods[j..][1..] == methods[j + 1..];
        }
        assert ([operationId] + MethodIds(methods[j + 1..]) + OperationIds(paths[i + 1..]))[1..]
            == MethodIds(methods[j + 1..]) + OperationIds(paths[i + 1..]);
        if operationId in operationIds {
          return Some(operationId);
        }
        operationIds := operationIds + {operationId};
        j := j + 1;
      }
      assert MethodIds(methods[j..]) + OperationIds(paths[i + 1..]) == OperationIds(paths[i + 1..]);
      i := i + 1;
    }
    return None;
  }

  // ---------------------------------------------------------------------
  // The validator

  /** The text handed to `JSON.parse`: either it parses, or `JSON.parse` throws. */
  datatype Input = Unparseable | Parsed(value: Json)

  function IssueMessage(issue: Issue, typeMessage: (Expected, Received) -> string): string {
    match issue
    case Custom(m) => m
    case TypeError(expected, received) => typeMessage(expected, received)
  }

  /** `result.error.errors.map((error) => error.message).join(', ')`. */
  function StructuralMessage(issues: seq<Issue>, typeMessage: (Expected, Received) -> string): (m: string)
    ensures |issues| == 1 ==> m == IssueMessage(issues[0], typeMessage)
    ensures |issues| > 1 ==> IssueMessage(issues[0], typeMessage) + ", " <= m
    ensures |issues| > 1 ==> m == IssueMessage(issues[0], typeMessage) + ", " + StructuralMessage(issues[1..], typeMessage)
  {
    var messages := seq(|issues|, i requires 0 <= i < |issues| => IssueMessage(issues[i], typeMessage));
    assert |issues| > 1 ==>
      messages[1..] == seq(|issues| - 1, i requires 0 <= i < |issues| - 1 => IssueMessage(issues[1..][i], typeMessage));
    Join(messages, ", ")
  }

  /**
   * `validateOpenapiSchema`: the generic format error when the text is not
   * JSON, the joined issue messages when the structure is wrong, the
   * duplicate message for the first repeated operationId, otherwise the
   * checked document. Every failure is a `BadRequestApiError`.
   */
  function Validate(input: Input, isUrl: string -> bool, typeMessage: (Expected, Received) -> string)
    : (r: Result<Openapi, ApiError>)
    ensures r.Failure? ==> r.error.BadRequestError?
    ensures input.Unparseable? ==> r == Failure(BadRequestError(FormatErrorMessage))
  {
    match input
    case Unparseable => Failure(BadRequestError(FormatErrorMessage))
    case Parsed(v) =>
      match CheckDocument(v, isUrl)
      case Rejected(issues) => Failure(BadRequestError(StructuralMessage(issues, typeMessage)))
      case Accepted(doc) =>
        match FirstRepeat(OperationIds(doc.paths))
        case Some(id) => Failure(BadRequestError(DuplicateMessage(id)))
        case None => Success(doc)
  }

  /** The validator as the source runs it: the structural pass, then the loop. */
  method ValidateOpenapiSchema(input: Input, isUrl: string -> bool, typeMessage: (Expected, Received) -> string)
    returns (r: Result<Openapi, ApiError>)
    ensures r == Validate(input, isUrl, typeMessage)
  {
    match input
    case Unparseable =>
      return Failure(BadRequestError(FormatErrorMessage));
    case Parsed(v) =>
      var checked := CheckDocument(v, isUrl);
      if checked.Rejected? {
        return Failure(BadRequestError(StructuralMessage(checked.issues, typeMessage)));
      }
      var duplicate := FindDuplicateOperationId(checked.value);
      if duplicate.Some? {
        return Failure(BadRequestError(DuplicateMessage(duplicate.value)));
      }
      return Success(checked.value);
  }
}
