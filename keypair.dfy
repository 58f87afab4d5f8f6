/**
 * The keypair administration functions (`KeyPair.create`, `update`, `delete`, `list`,
 * `info`, `activate`, `deactivate`): each builds one GraphQL query by string
 * templating and `str.replace('$fields', ...)`, builds its variables as a dict,
 * and POSTs both to /admin/graphql, returning one key of the JSON answer.
 * Sending the request and parsing the answer are not part of this model; a call
 * is described by what it would send and which key of the answer it returns.
 */
module KeyPairs {
  import opened Common
  import opened Values
  import Strings

  // ---------------------------------------------------------------------------
  // Arguments
  // ---------------------------------------------------------------------------

  /** `user_id: Union[int, str]`. */
  datatype UserId = IntId(n: int) | StrId(s: string)

  function UserIdValue(u: UserId): Value
  {
    match u
    case IntId(n) => Int(n)
    case StrId(s) => Str(s)
  }

  /** The GraphQL type of `$user_id` / `$email`: 'Int!' for an int, 'String!' otherwise. */
  function UidType(u: UserId): (t: string)
    ensures t == "Int!" <==> u.IntId?
    ensures t == "String!" <==> u.StrId?
    ensures '$' !in t
  {
    if u.IntId? then "Int!" else "String!"
  }

  /** An optional argument as it is put into the variables: None becomes null. */
  function OptBool(b: Option<bool>): Value
  {
    match b
    case None => Null
    case Some(x) => Bool(x)
  }

  function OptStr(s: Option<string>): Value
  {
    match s
    case None => Null
    case Some(x) => Str(x)
  }

  function OptInt(i: Option<int>): Value
  {
    match i
    case None => Null
    case Some(x) => Int(x)
  }

  /** The fields `create` asks for when none are given. */
  const DefaultCreateFields: seq<string> := ["access_key", "secret_key"]

  /** The fields `list` and `info` ask for when none are given. */
  const DefaultListFields: seq<string> := ["access_key", "secret_key", "is_active", "is_admin"]

  function FieldsOrDefault(fields: Option<seq<string>>, default: seq<string>): seq<string>
  {
    if fields.None? then default else fields.value
  }

  // ---------------------------------------------------------------------------
  // What a call sends
  // ---------------------------------------------------------------------------

  /**
   * One keypair call: `Request(session, 'POST', '/admin/graphql')` with the JSON body
   * {'query': query, 'variables': variables} (`info` sends no variables), answered by
   * `data[resultKey]` of the response.
   */
  datatype ApiCall = ApiCall(
    httpMethod: string,
    path: string,
    query: string,
    variables: Option<seq<(string, Value)>>,
    resultKey: string)

  function GraphQLCall(query: string, variables: Option<seq<(string, Value)>>, resultKey: string): ApiCall
  {
    ApiCall("POST", "/admin/graphql", query, variables, resultKey)
  }

  /** The JSON body given to `set_json`. */
  function Body(c: ApiCall): (v: Value)
    ensures v.Object? && Get(v.entries, "query") == Some(Str(c.query))
    ensures c.variables.Some? <==> Get(v.entries, "variables").Some?
    ensures c.variables.Some? ==> Get(v.entries, "variables") == Some(Object(c.variables.value))
  {
    match c.variables
    case None => Object([("query", Str(c.query))])
    case Some(vars) => Object([("query", Str(c.query)), ("variables", Object(vars))])
  }

  /**
   * `return data[resultKey]` on the decoded answer: the value stored under that key,
   * or a KeyError when the answer has no such key.
   */
  function ResultOf(c: ApiCall, data: seq<(string, Value)>): (r: Outcome<Value>)
    ensures r.Raised? <==> forall i :: 0 <= i < |data| ==> data[i].0 != c.resultKey
    ensures r.Raised? ==> r.error == KeyError(c.resultKey)
    ensures r.Done? ==> exists i :: 0 <= i < |data| && data[i] == (c.resultKey, r.value)
  {
    match Get(data, c.resultKey)
    case None => Raised(KeyError(c.resultKey))
    case Some(v) => Done(v)
  }

  // ---------------------------------------------------------------------------
  // The query templates
  // ---------------------------------------------------------------------------

  /** The placeholder every template carries exactly once where the field names go. */
  const FieldsMarker: string := "$fields"

  /** `' '.join(fields)`. */
  function FieldList(fields: seq<string>): string
  {
    Strings.Join(fields, " ")
  }

  /** `q.replace('$fields', ' '.join(fields))`. */
  function FillFields(template: string, fields: seq<string>): (q: string)
    ensures FieldList(fields) == FieldsMarker ==> q == template
    ensures |FieldList(fields)| == |FieldsMarker| ==> |q| == |template|
  {
    Strings.ReplaceAll(template, FieldsMarker, FieldList(fields))
  }

  // The literal text below is split where a '$' begins a variable reference, which
  // is where the proofs about the placeholder need a seam; the strings are the
  // source's own.

  /** The `create` template up to its placeholder (`'...{{'.format(uid_type)` and the next lines). */
  function CreateHead(uidType: string): string
  {
    "mutation(" + "$user_id: " + uidType + ", " + "$input: KeyPairInput!) {" +
    "  create_keypair(user_id: " + "$user_id, props: " + "$input) {" +
    "    ok msg keypair { "
  }

  const CreateTail: string := " }" + "  }" + "}"

  function CreateTemplate(uidType: string): string
  {
    CreateHead(uidType) + FieldsMarker + CreateTail
  }

  /** The `list` template without a user: only `$is_active` is declared. */
  const ListAllHead: string :=
    "query(" + "$is_active: Boolean) {" +
    "  keypairs(is_active: " + "$is_active) {" +
    "    "

  /** The `list` template for one user: `$email` is declared with the user id's type. */
  function ListUserHead(uidType: string): string
  {
    "query(" + "$email: " + uidType + ", " + "$is_active: Boolean) {" +
    "  keypairs(email: " + "$email, is_active: " + "$is_active) {" +
    "    "
  }

  function ListHead(userId: Option<UserId>): string
  {
    if userId.None? then ListAllHead else ListUserHead(UidType(userId.value))
  }

  /** The tail shared by the `list` and `info` templates. */
  const ListTail: string := "  }" + "}"

  function ListTemplate(userId: Option<UserId>): string
  {
    ListHead(userId) + FieldsMarker + ListTail
  }

  const InfoHead: string := "query {" + "  keypair {" + "    "

  function InfoTemplate(): string
  {
    InfoHead + FieldsMarker + ListTail
  }

  /** The query `update`, `activate` and `deactivate` send; it has no placeholder. */
  const ModifyQuery: string :=
    "mutation($access_key: String!, $input: ModifyKeyPairInput!) {" +
    "  modify_keypair(access_key: $access_key, props: $input) {" +
    "    ok msg" +
    "  }" +
    "}"

  const DeleteQuery: string :=
    "mutation($access_key: String!) {" +
    "  delete_keypair(access_key: $access_key) {" +
    "    ok msg" +
    "  }" +
    "}"

  // ---------------------------------------------------------------------------
  // The calls
  // ---------------------------------------------------------------------------

  /** The `input` object of `create` and the modify calls, keys in the source's order. */
  function KeyPairInput(isActive: Value, isAdmin: Value, resourcePolicy: Value, rateLimit: Value): seq<(string, Value)>
  {
    [("is_active", isActive), ("is_admin", isAdmin), ("resource_policy", resourcePolicy), ("rate_limit", rateLimit)]
  }

  /** `KeyPair.create` (is_active defaults to True and is_admin to False at the caller). */
  function Create(userId: UserId, isActive: bool, isAdmin: bool, resourcePolicy: Option<string>,
                  rateLimit: Option<int>, fields: Option<seq<string>>): (c: ApiCall)
    ensures c.httpMethod == "POST" && c.path == "/admin/graphql" && c.resultKey == "create_keypair"
    ensures c.variables.Some? && |c.variables.value| == 2
  {
    var fs := FieldsOrDefault(fields, DefaultCreateFields);
    var q := FillFields(CreateTemplate(UidType(userId)), fs);
    var variables := [
      ("user_id", UserIdValue(userId)),
      ("input", Object(KeyPairInput(Bool(isActive), Bool(isAdmin), OptStr(resourcePolicy), OptInt(rateLimit))))];
    GraphQLCall(q, Some(variables), "create_keypair")
  }

  /** `KeyPair.update`: every input is optional and passed through, None as null. */
  function Update(accessKey: string, isActive: Option<bool>, isAdmin: Option<bool>,
                  resourcePolicy: Option<string>, rateLimit: Option<int>): (c: ApiCall)
    ensures c.httpMethod == "POST" && c.path == "/admin/graphql" && c.resultKey == "modify_keypair"
    ensures c.query == ModifyQuery && c.variables.Some? && |c.variables.value| == 2
  {
    var variables := [
      ("access_key", Str(accessKey)),
      ("input", Object(KeyPairInput(OptBool(isActive), OptBool(isAdmin), OptStr(resourcePolicy), OptInt(rateLimit))))];
    GraphQLCall(ModifyQuery, Some(variables), "modify_keypair")
  }

  /** `KeyPair.delete`: the access key is the only variable. */
  function Delete(accessKey: string): (c: ApiCall)
    ensures c.httpMethod == "POST" && c.path == "/admin/graphql" && c.resultKey == "delete_keypair"
    ensures c.variables.Some? && |c.variables.value| == 1
  {
    GraphQLCall(DeleteQuery, Some([("access_key", Str(accessKey))]), "delete_keypair")
  }

  /** `KeyPair.list`: 'email' is added to the variables after 'is_active', only for a given user. */
  function List(userId: Option<UserId>, isActive: Option<bool>, fields: Option<seq<string>>): (c: ApiCall)
    ensures c.httpMethod == "POST" && c.path == "/admin/graphql" && c.resultKey == "keypairs"
    ensures c.variables.Some? && |c.variables.value| == (if userId.Some? then 2 else 1)
  {
    var fs := FieldsOrDefault(fields, DefaultListFields);
    var q := FillFields(ListTemplate(userId), fs);
    var variables := [("is_active", OptBool(isActive))] +
      (if userId.Some? then [("email", UserIdValue(userId.value))] else []);
    GraphQLCall(q, Some(variables), "keypairs")
  }

  /** A `KeyPair` instance, which only remembers its access key. */
  datatype KeyPair = KeyPair(accessKey: string)

  /** `KeyPair(access_key).info(fields)`: a query without variables. */
  function Info(kp: KeyPair, fields: Option<seq<string>>): (c: ApiCall)
    ensures c.httpMethod == "POST" && c.path == "/admin/graphql" && c.resultKey == "keypair"
    ensures c.variables.None?
  {
    GraphQLCall(FillFields(InfoTemplate(), FieldsOrDefault(fields, DefaultListFields)), None, "keypair")
  }

  /** `KeyPair.activate`: a modify call that sets is_active and leaves the rest None. */
  function Activate(accessKey: string): (c: ApiCall)
    ensures c.httpMethod == "POST" && c.path == "/admin/graphql" && c.resultKey == "modify_keypair"
    ensures c.query == ModifyQuery && c.variables.Some? && |c.variables.value| == 2
  {
    var variables := [
      ("access_key", Str(accessKey)),
      ("input", Object(KeyPairInput(Bool(true), Null, Null, Null)))];
    GraphQLCall(ModifyQuery, Some(variables), "modify_keypair")
  }

  /** `KeyPair.deactivate`: a modify call that clears is_active and leaves the rest None. */
  function Deactivate(accessKey: string): (c: ApiCall)
    ensures c.httpMethod == "POST" && c.path == "/admin/graphql" && c.resultKey == "modify_keypair"
    ensures c.query == ModifyQuery && c.variables.Some? && |c.variables.value| == 2
  {
    var variables := [
      ("access_key", Str(accessKey)),
      ("input", Object(KeyPairInput(Bool(false), Null, Null, Null)))];
    GraphQLCall(ModifyQuery, Some(variables), "modify_keypair")
  }

  // ---------------------------------------------------------------------------
  // The substitution of the field names
  // ---------------------------------------------------------------------------

  /**
   * Filling a template whose head holds no place where the placeholder could begin,
   * and whose tail holds no '$' at all, puts the joined field names exactly where the
   * placeholder was and changes nothing else, even when a field name itself reads
   * '$fields' (the replacement text is never rescanned).
   */
  lemma FillReplacesPlaceholder(head: string, tail: string, fields: seq<string>)
    requires Strings.NoMatchStarts(head, FieldsMarker)
    requires '$' !in tail
    ensures FillFields(head + FieldsMarker + tail, fields) == head + FieldList(fields) + tail
  {
    var rep := FieldList(fields);
    Strings.ReplaceSkips(head, FieldsMarker + tail, FieldsMarker, rep);
    assert head + FieldsMarker + tail == head + (FieldsMarker + tail);
    Strings.ReplaceHit(tail, FieldsMarker, rep);
    Strings.NoMatchStartsWithout(tail, FieldsMarker);
    Strings.ReplaceSkips(tail, "", FieldsMarker, rep);
    assert tail + "" == tail;
    assert Strings.ReplaceAll("", FieldsMarker, rep) == "";
  }

  /** No place in `s` where the placeholder could begin. */
  predicate NoMarker(s: string)
  {
    Strings.NoMatchStarts(s, FieldsMarker)
  }

  /** Glues three stretches that cannot start a placeholder. */
  lemma NoMarkerGlue(a: string, b: string, c: string)
    requires NoMarker(a) && NoMarker(b) && NoMarker(c)
    ensures NoMarker(a + b + c)
  {
  }

  lemma CreatePieces()
    ensures NoMarker("mutation(") && NoMarker("$user_id: ") && NoMarker(", ")
    ensures NoMarker("$input: KeyPairInput!) {") && NoMarker("  create_keypair(user_id: ")
    ensures NoMarker("$user_id, props: ") && NoMarker("$input) {") && NoMarker("    ok msg keypair { ")
  {
  }

  lemma CreateHeadHasNoMarker(uidType: string)
    requires '$' !in uidType
    ensures NoMarker(CreateHead(uidType))
  {
    Strings.NoMatchStartsWithout(uidType, FieldsMarker);
    CreatePieces();
    NoMarkerGlue("mutation(", "$user_id: ", uidType);
    NoMarkerGlue(", ", "$input: KeyPairInput!) {", "  create_keypair(user_id: ");
    NoMarkerGlue("$user_id, props: ", "$input) {", "    ok msg keypair { ");
    NoMarkerGlue("mutation(" + "$user_id: " + uidType,
                 ", " + "$input: KeyPairInput!) {" + "  create_keypair(user_id: ",
                 "$user_id, props: " + "$input) {" + "    ok msg keypair { ");
  }

  lemma ListPieces()
    ensures NoMarker("query(") && NoMarker("$email: ") && NoMarker(", ")
    ensures NoMarker("$is_active: Boolean) {") && NoMarker("  keypairs(email: ")
    ensures NoMarker("$email, is_active: ") && NoMarker("$is_active) {") && NoMarker("    ")
    ensures NoMarker("  keypairs(is_active: ")
  {
  }

  lemma ListHeadHasNoMarker(userId: Option<UserId>)
    ensures NoMarker(ListHead(userId))
  {
    ListPieces();
    if userId.None? {
      NoMarkerGlue("query(", "$is_active: Boolean) {", "  keypairs(is_active: ");
      NoMarkerGlue("query(" + "$is_active: Boolean) {" + "  keypairs(is_active: ", "$is_active) {", "    ");
    } else {
      var uidType := UidType(userId.value);
      Strings.NoMatchStartsWithout(uidType, FieldsMarker);
      NoMarkerGlue("query(", "$email: ", uidType);
      NoMarkerGlue(", ", "$is_active: Boolean) {", "  keypairs(email: ");
      NoMarkerGlue("$email, is_active: ", "$is_active) {", "    ");
      NoMarkerGlue("query(" + "$email: " + uidType,
                   ", " + "$is_active: Boolean) {" + "  keypairs(email: ",
                   "$email, is_active: " + "$is_active) {" + "    ");
    }
  }

  lemma InfoHeadHasNoMarker()
    ensures NoMarker(InfoHead)
  {
  }

  lemma TailsHaveNoDollar()
    ensures '$' !in CreateTail && '$' !in ListTail
  {
  }

  lemma DefaultCreateFieldsText()
    ensures FieldList(DefaultCreateFields) == "access_key secret_key"
  {
  }

  lemma DefaultListFieldsText()
    ensures FieldList(DefaultListFields) == "access_key" + " " + "secret_key" + " " + "is_active" + " " + "is_admin"
  {
  }

  /** A prefix of the head is a prefix of the filled template. */
  lemma PrefixKept(head: string, middle: string, tail: string, n: nat)
    requires n <= |head|
    ensures (head + middle + tail)[..n] == head[..n]
  {
  }

  /** The `create` head opens by declaring `$user_id` with the given type. */
  lemma CreateHeadStart(uidType: string)
    requires uidType == "Int!" || uidType == "String!"
    ensures |CreateHead(uidType)| >= 23
    ensures CreateHead(uidType)[..23] == "mutation($user_id: " + uidType[..4]
  {
  }

  /** Only the `list` head for one user opens by declaring `$email`. */
  lemma ListHeadStart(userId: Option<UserId>)
    ensures |ListHead(userId)| >= 14
    ensures userId.Some? <==> ListHead(userId)[..14] == "query($email: "
  {
    if userId.None? {
      assert ListAllHead[7] == 'i';
    }
  }

  /** Looking up each key of an `input` object finds the value given for it. */
  lemma InputLookup(isActive: Value, isAdmin: Value, resourcePolicy: Value, rateLimit: Value)
    ensures var input := KeyPairInput(isActive, isAdmin, resourcePolicy, rateLimit);
      && Get(input, "is_active") == Some(isActive)
      && Get(input, "is_admin") == Some(isAdmin)
      && Get(input, "resource_policy") == Some(resourcePolicy)
      && Get(input, "rate_limit") == Some(rateLimit)
  {
    var input := KeyPairInput(isActive, isAdmin, resourcePolicy, rateLimit);
    assert Get(input[3..], "rate_limit") == Some(rateLimit);
    assert Get(input[2..], "rate_limit") == Get(input[3..], "rate_limit");
    assert Get(input[1..], "rate_limit") == Get(input[2..], "rate_limit");
    assert Get(input[2..], "resource_policy") == Some(resourcePolicy);
    assert Get(input[1..], "resource_policy") == Get(input[2..], "resource_policy");
  }

  // ---------------------------------------------------------------------------
  // Properties of the calls
  // ---------------------------------------------------------------------------

  /**
   * `create` sends the field names, joined by single spaces, in place of the
   * placeholder of its template, and ('access_key', 'secret_key') when none are given.
   */
  lemma CreateQuery(userId: UserId, isActive: bool, isAdmin: bool, resourcePolicy: Option<string>,
                    rateLimit: Option<int>, fields: Option<seq<string>>)
    ensures var c := Create(userId, isActive, isAdmin, resourcePolicy, rateLimit, fields);
      && c.httpMethod == "POST" && c.path == "/admin/graphql" && c.resultKey == "create_keypair"
      && (fields.Some? ==> c.query == CreateHead(UidType(userId)) + FieldList(fields.value) + CreateTail)
      && (fields.None? ==> c.query == CreateHead(UidType(userId)) + "access_key secret_key" + CreateTail)
  {
    var fs := FieldsOrDefault(fields, DefaultCreateFields);
    CreateHeadHasNoMarker(UidType(userId));
    TailsHaveNoDollar();
    FillReplacesPlaceholder(CreateHead(UidType(userId)), CreateTail, fs);
    DefaultCreateFieldsText();
  }

  /** `create` declares `$user_id` with the type of the id it carries. */
  lemma CreateDeclaresUserIdType(userId: UserId, isActive: bool, isAdmin: bool, resourcePolicy: Option<string>,
                                 rateLimit: Option<int>, fields: Option<seq<string>>)
    ensures var q := Create(userId, isActive, isAdmin, resourcePolicy, rateLimit, fields).query;
      && |q| >= 23
      && (userId.IntId? <==> q[..23] == "mutation($user_id: Int!")
  {
    var uidType := UidType(userId);
    var fs := FieldsOrDefault(fields, DefaultCreateFields);
    CreateHeadHasNoMarker(uidType);
    TailsHaveNoDollar();
    FillReplacesPlaceholder(CreateHead(uidType), CreateTail, fs);
    CreateHeadStart(uidType);
    PrefixKept(CreateHead(uidType), FieldList(fs), CreateTail, 23);
    if userId.StrId? {
      assert CreateHead(uidType)[..23][22] == 'i';
    }
  }

  /**
   * `create` passes the user id at the top level and the four options verbatim
   * under 'input'.
   */
  lemma CreateVariables(userId: UserId, isActive: bool, isAdmin: bool, resourcePolicy: Option<string>,
                        rateLimit: Option<int>, fields: Option<seq<string>>)
    ensures var vars := Create(userId, isActive, isAdmin, resourcePolicy, rateLimit, fields).variables;
      && vars.Some?
      && Get(vars.value, "user_id") == Some(UserIdValue(userId))
      && Get(vars.value, "input").Some? && Get(vars.value, "input").value.Object?
      && var input := Get(vars.value, "input").value.entries;
      && Get(input, "is_active") == Some(Bool(isActive))
      && Get(input, "is_admin") == Some(Bool(isAdmin))
      && Get(input, "resource_policy") == Some(OptStr(resourcePolicy))
      && Get(input, "rate_limit") == Some(OptInt(rateLimit))
  {
    InputLookup(Bool(isActive), Bool(isAdmin), OptStr(resourcePolicy), OptInt(rateLimit));
  }

  /**
   * `list` declares `$email`, and its variables hold 'email', exactly when a user is
   * given; 'is_active' is always there.
   */
  lemma ListEmailIffUser(userId: Option<UserId>, isActive: Option<bool>, fields: Option<seq<string>>)
    ensures var c := List(userId, isActive, fields);
      && c.variables.Some?
      && |c.query| >= 14
      && (userId.Some? <==> c.query[..14] == "query($email: ")
      && (userId.Some? <==> Get(c.variables.value, "email").Some?)
      && (userId.Some? ==> Get(c.variables.value, "email") == Some(UserIdValue(userId.value)))
      && Get(c.variables.value, "is_active") == Some(OptBool(isActive))
  {
    var fs := FieldsOrDefault(fields, DefaultListFields);
    ListHeadHasNoMarker(userId);
    TailsHaveNoDollar();
    FillReplacesPlaceholder(ListHead(userId), ListTail, fs);
    ListHeadStart(userId);
    PrefixKept(ListHead(userId), FieldList(fs), ListTail, 14);
  }

  /** `list` sends the field names in place of the placeholder, four default ones. */
  lemma ListQuery(userId: Option<UserId>, isActive: Option<bool>, fields: Option<seq<string>>)
    ensures var c := List(userId, isActive, fields);
      && c.httpMethod == "POST" && c.path == "/admin/graphql" && c.resultKey == "keypairs"
      && (fields.Some? ==> c.query == ListHead(userId) + FieldList(fields.value) + ListTail)
      && (fields.None? ==> c.query == ListHead(userId) + FieldList(DefaultListFields) + ListTail)
  {
    var fs := FieldsOrDefault(fields, DefaultListFields);
    ListHeadHasNoMarker(userId);
    TailsHaveNoDollar();
    FillReplacesPlaceholder(ListHead(userId), ListTail, fs);
  }

  /**
   * `info` sends the field names in place of the placeholder and no variables; the
   * query does not depend on the instance's access key, which it never reads.
   */
  lemma InfoQuery(kp: KeyPair, other: KeyPair, fields: seq<string>)
    ensures var c := Info(kp, Some(fields));
      && c.variables.None? && c.resultKey == "keypair"
      && c.query == InfoHead + FieldList(fields) + ListTail
      && c == Info(other, Some(fields))
  {
    InfoHeadHasNoMarker();
    TailsHaveNoDollar();
    FillReplacesPlaceholder(InfoHead, ListTail, fields);
  }

  /**
   * `update` names the key first, then passes the four options under 'input', each
   * as given or null for None.
   */
  lemma UpdateVariables(accessKey: string, isActive: Option<bool>, isAdmin: Option<bool>,
                        resourcePolicy: Option<string>, rateLimit: Option<int>)
    ensures var vars := Update(accessKey, isActive, isAdmin, resourcePolicy, rateLimit).variables.value;
      && vars[0] == ("access_key", Str(accessKey))
      && Get(vars, "input").Some? && Get(vars, "input").value.Object?
      && var input := Get(vars, "input").value.entries;
      && Get(input, "is_active") == Some(OptBool(isActive))
      && Get(input, "is_admin") == Some(OptBool(isAdmin))
      && Get(input, "resource_policy") == Some(OptStr(resourcePolicy))
      && Get(input, "rate_limit") == Some(OptInt(rateLimit))
      && (isActive.None? ==> Get(input, "is_active") == Some(Null))
  {
    InputLookup(OptBool(isActive), OptBool(isAdmin), OptStr(resourcePolicy), OptInt(rateLimit));
  }

  /** `activate` is `update` with is_active True and every other input None. */
  lemma ActivateIsUpdate(accessKey: string)
    ensures Activate(accessKey) == Update(accessKey, Some(true), None, None, None)
    ensures var input := Activate(accessKey).variables.value[1].1.entries;
      Get(input, "is_active") == Some(Bool(true)) &&
      Get(input, "is_admin") == Some(Null) &&
      Get(input, "resource_policy") == Some(Null) &&
      Get(input, "rate_limit") == Some(Null)
  {
  }

  /** `deactivate` is `update` with is_active False and every other input None. */
  lemma DeactivateIsUpdate(accessKey: string)
    ensures Deactivate(accessKey) == Update(accessKey, Some(false), None, None, None)
    ensures var input := Deactivate(accessKey).variables.value[1].1.entries;
      Get(input, "is_active") == Some(Bool(false)) &&
      Get(input, "is_admin") == Some(Null) &&
      Get(input, "resource_policy") == Some(Null) &&
      Get(input, "rate_limit") == Some(Null)
  {
  }

  /** `delete` names the key it deletes and nothing else. */
  lemma DeleteVariables(accessKey: string)
    ensures var c := Delete(accessKey);
      c.variables == Some([("access_key", Str(accessKey))]) && c.resultKey == "delete_keypair" &&
      c.query == DeleteQuery
  {
  }
}
