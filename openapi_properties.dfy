/**
 * What the validator promises: which inputs it accepts, that what it returns
 * is trimmed and free of repeated operationIds, which duplicate it reports,
 * and that a validated document survives serialisation and validation again.
 */
module OpenapiProperties {
  import opened Wrappers
  import opened Json
  import opened Text
  import opened Exception
  import opened OpenapiSchema

  // ---------------------------------------------------------------------
  // What a validated document looks like

  /** A string `trim().nonempty()` lets through, as it returns it. */
  predicate Clean(s: string) {
    s != "" && IsTrimmed(s)
  }

  predicate ParameterClean(p: Parameter) {
    Clean(p.name) && Clean(p.description)
  }

  predicate OperationClean(o: Operation) {
    Clean(o.description) && Clean(o.operationId) &&
    forall k :: 0 <= k < |o.parameters| ==> ParameterClean(o.parameters[k])
  }

  predicate MethodsClean(methods: seq<(Method, Operation)>) {
    forall j :: 0 <= j < |methods| ==> OperationClean(methods[j].1)
  }

  predicate DocumentClean(doc: Openapi) {
    Clean(doc.description) && forall i :: 0 <= i < |doc.paths| ==> MethodsClean(doc.paths[i].1)
  }

  /** No path is keyed `__proto__`: a zod record never sets that key. */
  predicate OwnPathKeys(paths: seq<(string, seq<(Method, Operation)>)>) {
    forall i :: 0 <= i < |paths| ==> paths[i].0 != ProtoKey
  }

  /** Everything the validator guarantees of the document it returns. */
  predicate Conforms(doc: Openapi, isUrl: string -> bool) {
    isUrl(doc.server) && DocumentClean(doc) && OwnPathKeys(doc.paths) && Distinct(OperationIds(doc.paths))
  }

  // ---------------------------------------------------------------------
  // Serialisation (`JSON.stringify` of a document, parsed back)

  function ParameterToJson(p: Parameter): Json {
    JObject([("name", JString(p.name)), ("in", JString(LocationName(p.location))),
             ("description", JString(p.description)), ("required", JBool(p.required)),
             ("type", JString(ParamTypeName(p.paramType)))])
  }

  function OperationToJson(o: Operation): Json {
    JObject([("description", JString(o.description)), ("operationId", JString(o.operationId)),
             ("parameters", JArray(seq(|o.parameters|, k requires 0 <= k < |o.parameters| => ParameterToJson(o.parameters[k]))))])
  }

  function MethodsToJson(methods: seq<(Method, Operation)>): seq<(string, Json)> {
    seq(|methods|, j requires 0 <= j < |methods| => (MethodName(methods[j].0), OperationToJson(methods[j].1)))
  }

  function ToJson(doc: Openapi): Json {
    JObject([("server", JString(doc.server)), ("description", JString(doc.description)),
             ("paths", JObject(seq(|doc.paths|, i requires 0 <= i < |doc.paths| => (doc.paths[i].0, JObject(MethodsToJson(doc.paths[i].1))))))])
  }

  // ---------------------------------------------------------------------
  // Field rules, stated against the allowed-value constants

  predicate NonBlankAt(e: seq<(string, Json)>, key: string) {
    Lookup(e, key).Some? && Lookup(e, key).value.JString? && Trim(Lookup(e, key).value.s) != ""
  }

  predicate OneOfAt(e: seq<(string, Json)>, key: string, allowed: seq<string>) {
    Lookup(e, key).Some? && Lookup(e, key).value.JString? && Lookup(e, key).value.s in allowed
  }

  /**
   * A parameter is accepted exactly when `name` and `description` are
   * strings that are not blank, `in` and `type` are among the allowed
   * names, and `required` is a boolean.
   */
  lemma ParameterAccepted(v: Json)
    ensures CheckParameter(v).Accepted? <==>
              v.JObject? && NonBlankAt(v.entries, "name") &&
              OneOfAt(v.entries, "in", AllowedParameterLocations) &&
              NonBlankAt(v.entries, "description") &&
              Lookup(v.entries, "required").Some? && Lookup(v.entries, "required").value.JBool? &&
              OneOfAt(v.entries, "type", AllowedParameterType)
  {
  }

  /** An accepted parameter holds the trimmed strings and the values the input names. */
  lemma ParameterValues(v: Json)
    requires CheckParameter(v).Accepted?
    ensures v.JObject?
    ensures var p := CheckParameter(v).value;
            p.name == Trim(Lookup(v.entries, "name").value.s) &&
            p.description == Trim(Lookup(v.entries, "description").value.s) &&
            LocationName(p.location) == Lookup(v.entries, "in").value.s &&
            ParamTypeName(p.paramType) == Lookup(v.entries, "type").value.s &&
            p.required == Lookup(v.entries, "required").value.b
  {
  }

  /**
   * An accepted operation holds the trimmed description and operationId of
   * the input and one parameter per array element, each the parameter that
   * element checks to.
   */
  lemma OperationValues(v: Json)
    requires CheckOperation(v).Accepted?
    ensures v.JObject?
    ensures var e := v.entries;
            var o := CheckOperation(v).value;
            o.description == Trim(Lookup(e, "description").value.s) &&
            o.operationId == Trim(Lookup(e, "operationId").value.s) &&
            Lookup(e, "parameters").value.JArray? &&
            |o.parameters| == |Lookup(e, "parameters").value.items| &&
            forall k :: 0 <= k < |o.parameters| ==>
              o.parameters[k] == CheckParameter(Lookup(e, "parameters").value.items[k]).value
  {
  }

  /**
   * An accepted path entry keeps its key, has one method per input entry in
   * the input's order, each parsed from its key, and each operation is the
   * one that entry's value checks to.
   */
  lemma PathEntryValues(entry: (string, Json))
    requires CheckPathEntry(entry).Accepted?
    ensures entry.1.JObject?
    ensures var methods := CheckPathEntry(entry).value.1;
            CheckPathEntry(entry).value.0 == entry.0 && |methods| == |entry.1.entries| &&
            forall j :: 0 <= j < |methods| ==>
              MethodName(methods[j].0) == entry.1.entries[j].0 &&
              methods[j].1 == CheckOperation(entry.1.entries[j].1).value
  {
    var methods := CheckPathEntry(entry).value.1;
    forall j | 0 <= j < |methods|
      ensures MethodName(methods[j].0) == entry.1.entries[j].0
      ensures methods[j].1 == CheckOperation(entry.1.entries[j].1).value
    {
      assert CheckMethodEntry(entry.1.entries[j]).Accepted?;
    }
  }

  /** The checked value of each `paths` entry, in input order. */
  function CheckedPathEntries(pe: seq<(string, Json)>): seq<(string, seq<(Method, Operation)>)>
    requires forall i :: 0 <= i < |pe| ==> CheckPathEntry(pe[i]).Accepted?
  {
    seq(|pe|, i requires 0 <= i < |pe| => CheckPathEntry(pe[i]).value)
  }

  /** The paths of an accepted document are the own entries of its checked `paths` record. */
  lemma DocumentPaths(v: Json, isUrl: string -> bool)
    requires CheckDocument(v, isUrl).Accepted?
    ensures v.JObject? && Lookup(v.entries, "paths").Some? && Lookup(v.entries, "paths").value.JObject?
    ensures var pe := Lookup(v.entries, "paths").value.entries;
            CheckEach(pe, CheckPathEntry).Accepted? &&
            CheckDocument(v, isUrl).value.paths == OwnEntries(CheckEach(pe, CheckPathEntry).value)
  {
  }

  /**
   * An accepted document holds the input's server string untrimmed, its
   * trimmed description, and, in the input's order, the checked value of
   * every `paths` entry except one keyed `__proto__`.
   */
  lemma DocumentValues(v: Json, isUrl: string -> bool)
    requires CheckDocument(v, isUrl).Accepted?
    ensures v.JObject?
    ensures var e := v.entries;
            var doc := CheckDocument(v, isUrl).value;
            doc.server == Lookup(e, "server").value.s &&
            doc.description == Trim(Lookup(e, "description").value.s) &&
            Lookup(e, "paths").Some? && Lookup(e, "paths").value.JObject? &&
            var pe := Lookup(e, "paths").value.entries;
            (forall i :: 0 <= i < |pe| ==> CheckPathEntry(pe[i]).Accepted?) &&
            doc.paths == OwnEntries(CheckedPathEntries(pe))
  {
    DocumentPaths(v, isUrl);
    var pe := Lookup(v.entries, "paths").value.entries;
    assert CheckEach(pe, CheckPathEntry).value == CheckedPathEntries(pe);
  }

  /** What the validator returns is the document the structural pass built from the input. */
  lemma ValidateValues(v: Json, isUrl: string -> bool, typeMessage: (Expected, Received) -> string)
    requires Validate(Parsed(v), isUrl, typeMessage).Success?
    ensures CheckDocument(v, isUrl).Accepted?
    ensures Validate(Parsed(v), isUrl, typeMessage).value == CheckDocument(v, isUrl).value
    ensures v.JObject?
    ensures var e := v.entries;
            var doc := Validate(Parsed(v), isUrl, typeMessage).value;
            doc.server == Lookup(e, "server").value.s &&
            doc.description == Trim(Lookup(e, "description").value.s) &&
            Lookup(e, "paths").Some? && Lookup(e, "paths").value.JObject? &&
            var pe := Lookup(e, "paths").value.entries;
            (forall i :: 0 <= i < |pe| ==> CheckPathEntry(pe[i]).Accepted?) &&
            doc.paths == OwnEntries(CheckedPathEntries(pe))
  {
    DocumentValues(v, isUrl);
  }

  // ---------------------------------------------------------------------
  // Soundness: what is accepted is clean

  lemma ParameterAcceptedClean(v: Json)
    requires CheckParameter(v).Accepted?
    ensures ParameterClean(CheckParameter(v).value)
  {
  }

  lemma OperationAcceptedClean(v: Json)
    requires CheckOperation(v).Accepted?
    ensures OperationClean(CheckOperation(v).value)
  {
    var items := Lookup(v.entries, "parameters").value.items;
    forall k | 0 <= k < |items| ensures CheckParameter(items[k]).Accepted? {
    }
    forall k | 0 <= k < |items| ensures ParameterClean(CheckParameter(items[k]).value) {
      ParameterAcceptedClean(items[k]);
    }
  }

  lemma PathEntryAcceptedClean(entry: (string, Json))
    requires CheckPathEntry(entry).Accepted?
    ensures MethodsClean(CheckPathEntry(entry).value.1)
  {
    var methods := entry.1.entries;
    forall j | 0 <= j < |methods| ensures OperationClean(CheckMethodEntry(methods[j]).value.1) {
      assert CheckMethodEntry(methods[j]).Accepted?;
      OperationAcceptedClean(methods[j].1);
    }
  }

  lemma {:induction false} DocumentAcceptedClean(v: Json, isUrl: string -> bool)
    requires CheckDocument(v, isUrl).Accepted?
    ensures isUrl(CheckDocument(v, isUrl).value.server)
    ensures DocumentClean(CheckDocument(v, isUrl).value)
    ensures OwnPathKeys(CheckDocument(v, isUrl).value.paths)
  {
    DocumentPaths(v, isUrl);
    var paths := Lookup(v.entries, "paths").value.entries;
    var checked := CheckEach(paths, CheckPathEntry).value;
    forall i | 0 <= i < |paths| ensures MethodsClean(checked[i].1) {
      assert CheckPathEntry(paths[i]).Accepted?;
      PathEntryAcceptedClean(paths[i]);
    }
    OwnEntriesKeepClean(checked);
    OwnEntriesNoProto(checked);
  }

  /**
   * A `__proto__` path that passes its checks changes nothing: the record
   * checks exactly as if the entry were absent, so neither its operationIds
   * nor its rows reach the duplicate scan or the stored tools.
   */
  lemma ProtoPathIgnored(entry: (string, Json), rest: seq<(string, Json)>)
    requires entry.0 == ProtoKey && CheckPathEntry(entry).Accepted?
    ensures CheckPaths(Some(JObject([entry] + rest))) == CheckPaths(Some(JObject(rest)))
  {
    assert ([entry] + rest)[1..] == rest;
  }

  /** Dropping the `__proto__` entry keeps every remaining path clean. */
  lemma {:induction false} OwnEntriesKeepClean(paths: seq<(string, seq<(Method, Operation)>)>)
    requires forall i :: 0 <= i < |paths| ==> MethodsClean(paths[i].1)
    ensures forall i :: 0 <= i < |OwnEntries(paths)| ==> MethodsClean(OwnEntries(paths)[i].1)
  {
    if |paths| > 0 {
      OwnEntriesKeepClean(paths[1..]);
    }
  }

  /** A successful validation returns a document that conforms in every respect. */
  lemma ValidateSound(v: Json, isUrl: string -> bool, typeMessage: (Expected, Received) -> string)
    requires Validate(Parsed(v), isUrl, typeMessage).Success?
    ensures Conforms(Validate(Parsed(v), isUrl, typeMessage).value, isUrl)
  {
    DocumentAcceptedClean(v, isUrl);
    FirstRepeatNoneIffDistinct(OperationIds(CheckDocument(v, isUrl).value.paths));
  }

  // ---------------------------------------------------------------------
  // The duplicate scan

  lemma {:induction false} FirstRepeatFromNone(ids: seq<string>, seen: set<string>)
    ensures FirstRepeatFrom(ids, seen).None? <==>
              Distinct(ids) && forall i :: 0 <= i < |ids| ==> ids[i] !in seen
  {
    if |ids| > 0 {
      FirstRepeatFromNone(ids[1..], seen + {ids[0]});
      if Distinct(ids) && forall i :: 0 <= i < |ids| ==> ids[i] !in seen {
        assert forall i :: 0 <= i < |ids[1..]| ==> ids[1..][i] == ids[i + 1];
      } else if ids[0] !in seen {
        if Distinct(ids[1..]) && forall i :: 0 <= i < |ids[1..]| ==> ids[1..][i] !in seen + {ids[0]} {
          forall i, j | 0 <= i < j < |ids| ensures ids[i] != ids[j] {
            if i > 0 {
              assert ids[i] == ids[1..][i - 1] && ids[j] == ids[1..][j - 1];
            } else {
              assert ids[j] == ids[1..][j - 1];
            }
          }
          forall i | 0 <= i < |ids| ensures ids[i] !in seen {
            if i > 0 {
              assert ids[i] == ids[1..][i - 1];
            }
          }
          assert false;
        }
      }
    }
  }

  /** The scan finds nothing exactly when the ids are pairwise distinct. */
  lemma FirstRepeatNoneIffDistinct(ids: seq<string>)
    ensures FirstRepeat(ids).None? <==> Distinct(ids)
  {
    FirstRepeatFromNone(ids, {});
  }

  /**
   * Position `k` of `ids` repeats an id met before it (in `seen` or earlier
   * in `ids`), and nothing before `k` does.
   */
  predicate RepeatAt(ids: seq<string>, seen: set<string>, k: int) {
    0 <= k < |ids| && (ids[k] in seen || ids[k] in ids[..k]) &&
    Distinct(ids[..k]) && forall i :: 0 <= i < k ==> ids[i] !in seen
  }

  /** A first repeat of the tail, after a fresh head, is a first repeat one position later. */
  lemma RepeatAtStep(ids: seq<string>, seen: set<string>, k: int)
    requires |ids| > 0 && ids[0] !in seen && RepeatAt(ids[1..], seen + {ids[0]}, k)
    ensures RepeatAt(ids, seen, k + 1) && ids[k + 1] == ids[1..][k]
  {
    var rest := ids[1..];
    var prefix := ids[..k + 1];
    assert prefix == [ids[0]] + rest[..k];
    forall i, j | 0 <= i < j < |prefix| ensures prefix[i] != prefix[j] {
      if i > 0 {
        assert prefix[i] == rest[..k][i - 1];
      }
      assert prefix[j] == rest[..k][j - 1];
    }
    forall i | 0 <= i < k + 1 ensures ids[i] !in seen {
      if i > 0 {
        assert ids[i] == rest[..k][i - 1];
      }
    }
    if rest[k] == ids[0] {
      assert ids[k + 1] in ids[..k + 1];
    } else if rest[k] in rest[..k] {
      var m :| 0 <= m < k && rest[..k][m] == rest[k];
      assert ids[..k + 1][m + 1] == rest[k];
    }
  }

  lemma {:induction false} FirstRepeatFromSome(ids: seq<string>, seen: set<string>)
    requires FirstRepeatFrom(ids, seen).Some?
    ensures exists k :: RepeatAt(ids, seen, k) && ids[k] == FirstRepeatFrom(ids, seen).value
  {
    if ids[0] !in seen {
      var rest := ids[1..];
      FirstRepeatFromSome(rest, seen + {ids[0]});
      var k :| RepeatAt(rest, seen + {ids[0]}, k) && rest[k] == FirstRepeatFrom(rest, seen + {ids[0]}).value;
      RepeatAtStep(ids, seen, k);
    } else {
      assert ids[..0] == [];
      assert RepeatAt(ids, seen, 0);
    }
  }

  /**
   * When the scan reports an id, that id sits at a position `k` where it
   * repeats an earlier id, and no id before `k` repeats: it is the first
   * repeat met in iteration order.
   */
  lemma FirstRepeatIsFirst(ids: seq<string>)
    requires FirstRepeat(ids).Some?
    ensures exists k :: 0 <= k < |ids| && ids[k] == FirstRepeat(ids).value &&
              ids[k] in ids[..k] && Distinct(ids[..k])
  {
    FirstRepeatFromSome(ids, {});
  }

  /**
   * Once the structure is accepted, a repeated operationId fails validation
   * with the duplicate message for the first repeat in iteration order, and
   * distinct ids return the checked document unchanged.
   */
  lemma DuplicateOutcome(v: Json, isUrl: string -> bool, typeMessage: (Expected, Received) -> string)
    requires CheckDocument(v, isUrl).Accepted?
    ensures var ids := OperationIds(CheckDocument(v, isUrl).value.paths);
            Distinct(ids) ==> Validate(Parsed(v), isUrl, typeMessage) == Success(CheckDocument(v, isUrl).value)
    ensures var ids := OperationIds(CheckDocument(v, isUrl).value.paths);
            !Distinct(ids) ==>
              exists k :: 0 <= k < |ids| && ids[k] in ids[..k] && Distinct(ids[..k]) &&
                Validate(Parsed(v), isUrl, typeMessage) == Failure(BadRequestError(DuplicateMessage(ids[k])))
  {
    var ids := OperationIds(CheckDocument(v, isUrl).value.paths);
    FirstRepeatNoneIffDistinct(ids);
    if !Distinct(ids) {
      FirstRepeatIsFirst(ids);
    }
  }

  /** A structural failure is reported with its issues, whatever the operationIds. */
  lemma StructuralFailureFirst(v: Json, isUrl: string -> bool, typeMessage: (Expected, Received) -> string)
    requires CheckDocument(v, isUrl).Rejected?
    ensures Validate(Parsed(v), isUrl, typeMessage)
         == Failure(BadRequestError(StructuralMessage(CheckDocument(v, isUrl).issues, typeMessage)))
  {
  }

  // ---------------------------------------------------------------------
  // Rejections

  /** A method key outside the five makes the whole document invalid, with the method message among its issues. */
  lemma UnknownMethodRejected(v: Json, isUrl: string -> bool, typeMessage: (Expected, Received) -> string, i: nat, j: nat)
    requires v.JObject? && Lookup(v.entries, "paths").Some? && Lookup(v.entries, "paths").value.JObject?
    requires i < |Lookup(v.entries, "paths").value.entries|
    requires Lookup(v.entries, "paths").value.entries[i].1.JObject?
    requires j < |Lookup(v.entries, "paths").value.entries[i].1.entries|
    requires Lookup(v.entries, "paths").value.entries[i].1.entries[j].0 !in AllowedMethods
    ensures CheckDocument(v, isUrl).Rejected?
    ensures Custom(MethodMessage) in CheckDocument(v, isUrl).issues
    ensures Validate(Parsed(v), isUrl, typeMessage)
         == Failure(BadRequestError(StructuralMessage(CheckDocument(v, isUrl).issues, typeMessage)))
  {
    var paths := Lookup(v.entries, "paths").value.entries;
    MethodIssueInPath(paths[i], j);
    assert Custom(MethodMessage) in IssuesOf(CheckPaths(Lookup(v.entries, "paths")));
    PathsIssueInDocument(v, isUrl, Custom(MethodMessage));
    StructuralFailureFirst(v, isUrl, typeMessage);
  }

  /** An unknown method key puts the method message among its path's issues. */
  lemma MethodIssueInPath(entry: (string, Json), j: nat)
    requires entry.1.JObject? && j < |entry.1.entries| && entry.1.entries[j].0 !in AllowedMethods
    ensures CheckPathEntry(entry).Rejected?
    ensures Custom(MethodMessage) in CheckPathEntry(entry).issues
  {
    assert Custom(MethodMessage) in IssuesOf(CheckMethodEntry(entry.1.entries[j]));
  }

  /** An issue of `paths` is an issue of the whole document. */
  lemma PathsIssueInDocument(v: Json, isUrl: string -> bool, x: Issue)
    requires v.JObject? && x in IssuesOf(CheckPaths(Lookup(v.entries, "paths")))
    ensures CheckDocument(v, isUrl).Rejected?
    ensures x in CheckDocument(v, isUrl).issues
  {
  }

  /** A `server` string that is not a URL makes the whole document invalid. */
  lemma NonUrlServerRejected(v: Json, isUrl: string -> bool, typeMessage: (Expected, Received) -> string)
    requires v.JObject? && Lookup(v.entries, "server").Some? && Lookup(v.entries, "server").value.JString?
    requires !isUrl(Lookup(v.entries, "server").value.s)
    ensures CheckDocument(v, isUrl).Rejected?
    ensures CheckDocument(v, isUrl).issues[0] == Custom(ServerMessage)
    ensures Validate(Parsed(v), isUrl, typeMessage).Failure?
    ensures ServerMessage <= Validate(Parsed(v), isUrl, typeMessage).error.message
  {
    var issues := CheckDocument(v, isUrl).issues;
    var parts := seq(|issues|, i requires 0 <= i < |issues| => IssueMessage(issues[i], typeMessage));
    assert parts[0] == ServerMessage;
    assert parts[0] <= Join(parts, ", ");
  }

  /** Text that is not JSON yields exactly the generic format error. */
  lemma UnparseableRejected(isUrl: string -> bool, typeMessage: (Expected, Received) -> string)
    ensures Validate(Unparseable, isUrl, typeMessage) == Failure(BadRequestError(FormatErrorMessage))
    ensures Validate(Unparseable, isUrl, typeMessage).error.ToResponse().message == "openapi schema 格式错误"
  {
  }

  // ---------------------------------------------------------------------
  // Round trip

  lemma ParameterJsonFields(p: Parameter)
    ensures var e := ParameterToJson(p).entries;
            Lookup(e, "name") == Some(JString(p.name)) &&
            Lookup(e, "in") == Some(JString(LocationName(p.location))) &&
            Lookup(e, "description") == Some(JString(p.description)) &&
            Lookup(e, "required") == Some(JBool(p.required)) &&
            Lookup(e, "type") == Some(JString(ParamTypeName(p.paramType)))
  {
    var e := ParameterToJson(p).entries;
    LookupFirst(e, "name", 0);
    LookupFirst(e, "in", 1);
    LookupFirst(e, "description", 2);
    LookupFirst(e, "required", 3);
    assert e[0].0 != "type" && e[1].0 != "type" && e[2].0 != "type" && e[3].0 != "type";
    LookupFirst(e, "type", 4);
  }

  lemma NonBlankRoundTrip(s: string, message: string)
    requires Clean(s)
    ensures NonBlankString(Some(JString(s)), message) == Accepted(s)
  {
    TrimFixedPoint(s);
  }

  lemma EnumRoundTrip(l: Location, t: ParamType)
    ensures LocationField(Some(JString(LocationName(l)))) == Accepted(l)
    ensures ParamTypeField(Some(JString(ParamTypeName(t)))) == Accepted(t)
  {
    NamesRoundTrip(Get, l, t);
  }

  /** The field checks give back a clean parameter from its own field values. */
  lemma ParameterFieldsRoundTrip(p: Parameter)
    requires ParameterClean(p)
    ensures ParameterFields(Some(JString(p.name)), Some(JString(LocationName(p.location))),
                            Some(JString(p.description)), Some(JBool(p.required)),
                            Some(JString(ParamTypeName(p.paramType)))) == Accepted(p)
  {
    NonBlankRoundTrip(p.name, NameMessage);
    NonBlankRoundTrip(p.description, DescriptionMessage);
    EnumRoundTrip(p.location, p.paramType);
  }

  lemma ParameterRoundTrip(p: Parameter)
    requires ParameterClean(p)
    ensures CheckParameter(ParameterToJson(p)) == Accepted(p)
  {
    ParameterJsonFields(p);
    ParameterFieldsRoundTrip(p);
  }

  lemma OperationJsonFields(o: Operation)
    ensures var e := OperationToJson(o).entries;
            Lookup(e, "description") == Some(JString(o.description)) &&
            Lookup(e, "operationId") == Some(JString(o.operationId)) &&
            Lookup(e, "parameters") == Some(e[2].1)
  {
    var e := OperationToJson(o).entries;
    LookupFirst(e, "description", 0);
    LookupFirst(e, "operationId", 1);
    LookupFirst(e, "parameters", 2);
  }

  lemma {:induction false} ParametersRoundTrip(o: Operation)
    requires OperationClean(o)
    ensures CheckParameters(Some(OperationToJson(o).entries[2].1)) == Accepted(o.parameters)
  {
    var items := OperationToJson(o).entries[2].1.items;
    assert |items| == |o.parameters|;
    forall k | 0 <= k < |items| ensures CheckParameter(items[k]) == Accepted(o.parameters[k]) {
      ParameterRoundTrip(o.parameters[k]);
    }
    CheckEachAccepts(items, CheckParameter, o.parameters);
  }

  lemma OperationRoundTrip(o: Operation)
    requires OperationClean(o)
    ensures CheckOperation(OperationToJson(o)) == Accepted(o)
  {
    var e := OperationToJson(o).entries;
    OperationJsonFields(o);
    ParametersRoundTrip(o);
    NonBlankRoundTrip(o.description, DescriptionMessage);
    NonBlankRoundTrip(o.operationId, OperationIdMessage);
    assert OperationFields(Some(JString(o.description)), Some(JString(o.operationId)), Some(e[2].1)) == Accepted(o);
  }

  lemma MethodsRoundTrip(path: string, methods: seq<(Method, Operation)>)
    requires MethodsClean(methods)
    ensures CheckPathEntry((path, JObject(MethodsToJson(methods)))) == Accepted((path, methods))
  {
    var e := MethodsToJson(methods);
    forall j | 0 <= j < |e| ensures CheckMethodEntry(e[j]) == Accepted(methods[j]) {
      OperationRoundTrip(methods[j].1);
      NamesRoundTrip(methods[j].0, InPath, StringType);
    }
    CheckEachAccepts(e, CheckMethodEntry, methods);
  }

  /** The serialised `paths` record of a clean document checks back to the same paths. */
  lemma PathsRoundTrip(doc: Openapi)
    requires DocumentClean(doc) && OwnPathKeys(doc.paths)
    ensures CheckPaths(Some(ToJson(doc).entries[2].1)) == Accepted(doc.paths)
  {
    var paths := ToJson(doc).entries[2].1.entries;
    forall i | 0 <= i < |paths| ensures CheckPathEntry(paths[i]) == Accepted(doc.paths[i]) {
      MethodsRoundTrip(doc.paths[i].0, doc.paths[i].1);
    }
    CheckEachAccepts(paths, CheckPathEntry, doc.paths);
    OwnEntriesUnchanged(doc.paths);
  }

  lemma DocumentJsonFields(doc: Openapi)
    ensures var e := ToJson(doc).entries;
            Lookup(e, "server") == Some(JString(doc.server)) &&
            Lookup(e, "description") == Some(JString(doc.description)) &&
            Lookup(e, "paths") == Some(e[2].1)
  {
    var e := ToJson(doc).entries;
    LookupFirst(e, "server", 0);
    LookupFirst(e, "description", 1);
    LookupFirst(e, "paths", 2);
  }

  /** The structural pass gives back a clean document with a URL server from its serialisation. */
  lemma DocumentRoundTrip(doc: Openapi, isUrl: string -> bool)
    requires isUrl(doc.server) && DocumentClean(doc) && OwnPathKeys(doc.paths)
    ensures CheckDocument(ToJson(doc), isUrl) == Accepted(doc)
  {
    DocumentJsonFields(doc);
    NonBlankRoundTrip(doc.description, DescriptionMessage);
    PathsRoundTrip(doc);
  }

  /**
   * A conforming document, serialised and validated, comes back equal to
   * itself: in particular a valid input whose strings are already trimmed
   * is returned unchanged.
   */
  lemma RoundTrip(doc: Openapi, isUrl: string -> bool, typeMessage: (Expected, Received) -> string)
    requires Conforms(doc, isUrl)
    ensures Validate(Parsed(ToJson(doc)), isUrl, typeMessage) == Success(doc)
  {
    DocumentRoundTrip(doc, isUrl);
    FirstRepeatNoneIffDistinct(OperationIds(doc.paths));
  }

  /** Validating what a validation returned, after serialising it, gives the same document. */
  lemma RevalidateStable(v: Json, isUrl: string -> bool, typeMessage: (Expected, Received) -> string)
    requires Validate(Parsed(v), isUrl, typeMessage).Success?
    ensures var doc := Validate(Parsed(v), isUrl, typeMessage).value;
            Validate(Parsed(ToJson(doc)), isUrl, typeMessage) == Success(doc)
  {
    ValidateSound(v, isUrl, typeMessage);
    RoundTrip(Validate(Parsed(v), isUrl, typeMessage).value, isUrl, typeMessage);
  }
}
