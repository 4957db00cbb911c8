/**
 * Turning a validated provider document into the tool rows stored beside
 * the provider, and the check that a provider name is free in an account.
 */
module ApiToolProvider {
  import opened Wrappers
  import opened Exception
  import opened OpenapiSchema
  import opened OpenapiProperties

  /** One stored tool: one (path, method) of a provider's document. */
  datatype ApiTool = ApiTool(accountId: string, name: string, description: string,
                             url: string, httpMethod: string, parameters: seq<Parameter>)

  /** The row for one method entry of one path. */
  function ToolFor(server: string, path: string, entry: (Method, Operation), accountId: string): ApiTool {
    ApiTool(accountId, entry.1.operationId, entry.1.description, server + path,
            MethodName(entry.0), entry.1.parameters)
  }

  function PathTools(server: string, path: string, methods: seq<(Method, Operation)>, accountId: string)
    : (tools: seq<ApiTool>)
    ensures |tools| == |methods|
  {
    if |methods| == 0 then []
    else [ToolFor(server, path, methods[0], accountId)] + PathTools(server, path, methods[1..], accountId)
  }

  /** The rows of every path in order, each path's methods in order. */
  function Tools(server: string, paths: seq<(string, seq<(Method, Operation)>)>, accountId: string): seq<ApiTool> {
    if |paths| == 0 then []
    else PathTools(server, paths[0].0, paths[0].1, accountId) + Tools(server, paths[1..], accountId)
  }

  /** How many (path, method) entries the document has. */
  function EntryCount(paths: seq<(string, seq<(Method, Operation)>)>): nat {
    if |paths| == 0 then 0 else |paths[0].1| + EntryCount(paths[1..])
  }

  /** `formatApiTools`: the nested `for ... in` loops pushing one row per method entry. */
  method FormatApiTools(openapi: Openapi, accountId: string) returns (tools: seq<ApiTool>)
    ensures tools == Tools(openapi.server, openapi.paths, accountId)
  {
    var server := openapi.server;
    var paths := openapi.paths;
    tools := [];
    var i := 0;
    while i < |paths|
      invariant 0 <= i <= |paths|
      invariant tools + Tools(server, paths[i..], accountId) == Tools(server, paths, accountId)
    {
      var path := paths[i].0;
      var methods := paths[i].1;
      ToolsStep(server, paths, i, accountId);
      ghost var rest := Tools(server, paths[i + 1..], accountId);
      var j := 0;
      while j < |methods|
        invariant 0 <= j <= |methods|
        invariant tools + PathTools(server, path, methods[j..], accountId) + rest == Tools(server, paths, accountId)
      {
        var operation := methods[j].1;
        var tool := ApiTool(accountId, operation.operationId, operation.description,
                            server + path, MethodName(methods[j].0), operation.parameters);
        PathToolsStep(server, path, methods, j, accountId);
        assert tool == ToolFor(server, path, methods[j], accountId);
        assert tools + PathTools(server, path, methods[j..], accountId)
            == tools + [tool] + PathTools(server, path, methods[j + 1..], accountId);
        tools := tools + [tool];
        j := j + 1;
      }
      assert methods[j..] == [];
      i := i + 1;
    }
    assert paths[i..] == [];
  }

  lemma ToolsStep(server: string, paths: seq<(string, seq<(Method, Operation)>)>, i: nat, accountId: string)
    requires i < |paths|
    ensures Tools(server, paths[i..], accountId)
         == PathTools(server, paths[i].0, paths[i].1, accountId) + Tools(server, paths[i + 1..], accountId)
  {
    assert paths[i..][1..] == paths[i + 1..];
  }

  lemma PathToolsStep(server: string, path: string, methods: seq<(Method, Operation)>, j: nat, accountId: string)
    requires j < |methods|
    ensures PathTools(server, path, methods[j..], accountId)
         == [ToolFor(server, path, methods[j], accountId)] + PathTools(server, path, methods[j + 1..], accountId)
  {
    assert methods[j..][1..] == methods[j + 1..];
  }

  /** The rows of one path are its methods' rows, one for one and in order. */
  lemma {:induction false} PathToolsAt(server: string, path: string, methods: seq<(Method, Operation)>, accountId: string)
    ensures forall j :: 0 <= j < |methods| ==>
              PathTools(server, path, methods, accountId)[j] == ToolFor(server, path, methods[j], accountId)
  {
    if |methods| > 0 {
      PathToolsAt(server, path, methods[1..], accountId);
    }
  }

  lemma {:induction false} ToolsConcat(server: string, a: seq<(string, seq<(Method, Operation)>)>,
                                       b: seq<(string, seq<(Method, Operation)>)>, accountId: string)
    ensures Tools(server, a + b, accountId) == Tools(server, a, accountId) + Tools(server, b, accountId)
  {
    if |a| > 0 {
      assert (a + b)[1..] == a[1..] + b;
      ToolsConcat(server, a[1..], b, accountId);
    } else {
      assert a + b == b;
    }
  }

  /** Exactly one row per (path, method) entry, and the rows' names are the operationIds in scan order. */
  lemma {:induction false} ToolsMatchEntries(server: string, paths: seq<(string, seq<(Method, Operation)>)>, accountId: string)
    ensures |Tools(server, paths, accountId)| == EntryCount(paths) == |OperationIds(paths)|
    ensures forall k :: 0 <= k < |OperationIds(paths)| ==> Tools(server, paths, accountId)[k].name == OperationIds(paths)[k]
  {
    if |paths| > 0 {
      ToolsMatchEntries(server, paths[1..], accountId);
      var head := PathTools(server, paths[0].0, paths[0].1, accountId);
      var rest := Tools(server, paths[1..], accountId);
      var ids := MethodIds(paths[0].1);
      PathToolsAt(server, paths[0].0, paths[0].1, accountId);
      MethodIdsAt(paths[0].1);
      forall k | 0 <= k < |OperationIds(paths)|
        ensures Tools(server, paths, accountId)[k].name == OperationIds(paths)[k]
      {
        if k < |head| {
          assert Tools(server, paths, accountId)[k] == head[k];
        } else {
          assert Tools(server, paths, accountId)[k] == rest[k - |head|];
          assert OperationIds(paths)[k] == OperationIds(paths[1..])[k - |ids|];
        }
      }
    }
  }

  /**
   * The row for method `j` of path `i` sits after the rows of the earlier
   * paths and the earlier methods of path `i`: paths outer, methods inner,
   * in iteration order. Its name is the operationId, its url the plain
   * concatenation of server and path, its method the method key, and it
   * carries the account and the parameters unchanged.
   */
  lemma ToolAt(server: string, paths: seq<(string, seq<(Method, Operation)>)>, accountId: string, i: nat, j: nat)
    requires i < |paths| && j < |paths[i].1|
    ensures EntryCount(paths[..i]) + j < |Tools(server, paths, accountId)|
    ensures var t := Tools(server, paths, accountId)[EntryCount(paths[..i]) + j];
            var op := paths[i].1[j].1;
            t.name == op.operationId && t.description == op.description &&
            t.url == server + paths[i].0 && t.httpMethod == MethodName(paths[i].1[j].0) &&
            t.accountId == accountId && t.parameters == op.parameters
  {
    assert paths == paths[..i] + ([paths[i]] + paths[i + 1..]);
    ToolsConcat(server, paths[..i], [paths[i]] + paths[i + 1..], accountId);
    ToolsMatchEntries(server, paths[..i], accountId);
    assert ([paths[i]] + paths[i + 1..])[1..] == paths[i + 1..];
    PathToolsAt(server, paths[i].0, paths[i].1, accountId);
  }

  /** The rows of a document that passed validation have pairwise distinct names. */
  lemma ValidatedToolNamesDistinct(v: Json.Json, isUrl: string -> bool, typeMessage: (Expected, Json.Received) -> string,
                                    accountId: string)
    requires Validate(Parsed(v), isUrl, typeMessage).Success?
    ensures var doc := Validate(Parsed(v), isUrl, typeMessage).value;
            var tools := Tools(doc.server, doc.paths, accountId);
            forall k, l :: 0 <= k < l < |tools| ==> tools[k].name != tools[l].name
  {
    var doc := Validate(Parsed(v), isUrl, typeMessage).value;
    ValidateSound(v, isUrl, typeMessage);
    ToolsMatchEntries(doc.server, doc.paths, accountId);
  }

  // ---------------------------------------------------------------------
  // Rows written by an update

  /** A row as `updateApiToolProviderAndResetTools` inserts it: `{ ...tool, providerId }`. */
  datatype ProviderTool = ProviderTool(providerId: string, tool: ApiTool)

  /** Every row gets the same provider id and nothing else changes. */
  function WithProviderId(tools: seq<ApiTool>, providerId: string): (rows: seq<ProviderTool>)
    ensures |rows| == |tools|
    ensures forall k :: 0 <= k < |tools| ==> rows[k].providerId == providerId && rows[k].tool == tools[k]
  {
    seq(|tools|, k requires 0 <= k < |tools| => ProviderTool(providerId, tools[k]))
  }

  /** For a validated document the rows written on update have distinct (providerId, name) keys. */
  lemma UpdateRowKeysUnique(v: Json.Json, isUrl: string -> bool, typeMessage: (Expected, Json.Received) -> string,
                            accountId: string, providerId: string)
    requires Validate(Parsed(v), isUrl, typeMessage).Success?
    ensures var doc := Validate(Parsed(v), isUrl, typeMessage).value;
            var rows := WithProviderId(Tools(doc.server, doc.paths, accountId), providerId);
            forall k, l :: 0 <= k < l < |rows| ==>
              (rows[k].providerId, rows[k].tool.name) != (rows[l].providerId, rows[l].tool.name)
  {
    ValidatedToolNamesDistinct(v, isUrl, typeMessage, accountId);
  }

  // ---------------------------------------------------------------------
  // Name clash within an account

  datatype ProviderRecord = ProviderRecord(id: string, accountId: string, name: string)

  /** `if (selfProviderId)`: an empty id is falsy and excludes nothing. */
  predicate Excluded(p: ProviderRecord, selfProviderId: Option<string>) {
    selfProviderId.Some? && selfProviderId.value != "" && p.id == selfProviderId.value
  }

  /** The `where` clause: same account, same name, and not the excluded provider. */
  predicate Matches(p: ProviderRecord, accountId: string, name: string, selfProviderId: Option<string>) {
    p.accountId == accountId && p.name == name && !Excluded(p, selfProviderId)
  }

  /** `prisma.apiToolProvider.count({ where })`. */
  function CountMatching(providers: seq<ProviderRecord>, accountId: string, name: string,
                         selfProviderId: Option<string>): (n: nat)
    ensures n <= |providers|
    ensures n > 0 <==> exists i :: 0 <= i < |providers| && Matches(providers[i], accountId, name, selfProviderId)
  {
    if |providers| == 0 then 0
    else
      var rest := CountMatching(providers[1..], accountId, name, selfProviderId);
      assert forall i :: 1 <= i < |providers| ==> providers[i] == providers[1..][i - 1];
      (if Matches(providers[0], accountId, name, selfProviderId) then 1 else 0) + rest
  }

  /** `hasSameToolProviderNameInAccount`: `count > 0`. */
  function HasSameToolProviderNameInAccount(providers: seq<ProviderRecord>, accountId: string, name: string,
                                            selfProviderId: Option<string>): (clash: bool)
    ensures clash <==> exists i :: 0 <= i < |providers| && providers[i].accountId == accountId &&
                          providers[i].name == name && !Excluded(providers[i], selfProviderId)
  {
    CountMatching(providers, accountId, name, selfProviderId) > 0
  }

  /**
   * Naming the provider being updated removes only that provider from the
   * comparison: the answer is the one for the other providers alone.
   */
  lemma SelfExcluded(providers: seq<ProviderRecord>, accountId: string, name: string, self: string)
    requires self != ""
    ensures HasSameToolProviderNameInAccount(providers, accountId, name, Some(self))
         == HasSameToolProviderNameInAccount(Others(providers, self), accountId, name, None)
  {
    var others := Others(providers, self);
    if HasSameToolProviderNameInAccount(others, accountId, name, None) {
      var k :| 0 <= k < |others| && Matches(others[k], accountId, name, None);
      var i := OthersOrigin(providers, self, k);
    }
    if HasSameToolProviderNameInAccount(providers, accountId, name, Some(self)) {
      var i :| 0 <= i < |providers| && Matches(providers[i], accountId, name, Some(self));
      OthersKeeps(providers, self, i);
    }
  }

  /** The providers whose id is not `self`, in order. */
  function Others(providers: seq<ProviderRecord>, self: string): seq<ProviderRecord> {
    if |providers| == 0 then []
    else (if providers[0].id == self then [] else [providers[0]]) + Others(providers[1..], self)
  }

  lemma {:induction false} OthersOrigin(providers: seq<ProviderRecord>, self: string, k: nat) returns (i: nat)
    requires k < |Others(providers, self)|
    ensures i < |providers| && providers[i] == Others(providers, self)[k] && providers[i].id != self
  {
    if providers[0].id == self {
      var i' := OthersOrigin(providers[1..], self, k);
      i := i' + 1;
    } else if k == 0 {
      i := 0;
    } else {
      var i' := OthersOrigin(providers[1..], self, k - 1);
      i := i' + 1;
    }
  }

  lemma {:induction false} OthersKeeps(providers: seq<ProviderRecord>, self: string, i: nat)
    requires i < |providers| && providers[i].id != self
    ensures providers[i] in Others(providers, self)
  {
    if i > 0 {
      OthersKeeps(providers[1..], self, i - 1);
    }
  }
}
