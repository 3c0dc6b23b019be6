/** The users REST service: its auth headers, the query parameters of the
    user list and the form data of the create and update calls. */
module UserService {
  import opened Wrappers
  import opened Text
  import opened Browser
  import opened Http
  import opened Models

  /** `getAuthHeaders()`: bearer token and JSON content type. */
  function AuthHeaders(items: map<string, string>): (h: map<string, string>)
    ensures h.Keys == {"Authorization", "Content-Type"}
    ensures h["Authorization"] == BearerValue(StoredToken(items))
    ensures h["Content-Type"] == "application/json"
  {
    map["Authorization" := BearerValue(StoredToken(items)), "Content-Type" := "application/json"]
  }

  /** `getAuthHeadersFormData()`: only the bearer token, so the browser sets
      the multipart content type itself. */
  function AuthHeadersFormData(items: map<string, string>): (h: map<string, string>)
    ensures h.Keys == {"Authorization"}
    ensures h["Authorization"] == BearerValue(StoredToken(items))
  {
    map["Authorization" := BearerValue(StoredToken(items))]
  }

  /** The header reads "Bearer null" when neither key is stored, and also
      when `accessToken` is empty and `token` is absent; an empty `token`
      behind an empty `accessToken` gives "Bearer ". */
  lemma HeaderWithoutToken(items: map<string, string>)
    requires "accessToken" !in items || items["accessToken"] == ""
    ensures "token" !in items ==> AuthHeaders(items)["Authorization"] == "Bearer null"
    ensures "token" in items && items["token"] == "" ==> AuthHeaders(items)["Authorization"] == "Bearer "
  {
  }

  /** `value.toString()` of a boolean. */
  function BoolString(b: bool): string {
    if b then "true" else "false"
  }

  /** The guarded `set` calls of `getAll`, in source order: strings only
      when non-empty, numbers only when non-zero, booleans whenever defined. */
  function GetAllSteps(q: QueryUserDto): (steps: seq<ParamStep>)
    ensures DistinctStepKeys(steps)
  {
    [ParamStep(Truthy(q.role), "role", q.role.GetOr("")),
     ParamStep(q.isVerified.Some?, "isVerified", BoolString(q.isVerified.GetOr(false))),
     ParamStep(q.isActive.Some?, "isActive", BoolString(q.isActive.GetOr(false))),
     ParamStep(q.page.Some? && q.page.value != 0, "page", IntToString(q.page.GetOr(0))),
     ParamStep(q.limit.Some? && q.limit.value != 0, "limit", IntToString(q.limit.GetOr(0))),
     ParamStep(Truthy(q.search), "search", q.search.GetOr("")),
     ParamStep(Truthy(q.orderBy), "orderBy", q.orderBy.GetOr(""))]
  }

  /** The `HttpParams` that `getAll(query)` sends: nothing without a query,
      and otherwise only keys the query gives a value to send. */
  function GetAllParams(query: Option<QueryUserDto>): (p: Params)
    ensures query.None? ==> p == []
    ensures query.Some? ==> forall i :: 0 <= i < |p| ==> ExpectedParam(query.value, p[i].0).Some?
  {
    if query.None? then []
    else
      var steps := GetAllSteps(query.value);
      var p := ApplySteps([], steps);
      assert forall i :: 0 <= i < |p| ==> ExpectedParam(query.value, p[i].0).Some? by {
        forall i | 0 <= i < |p| ensures ExpectedParam(query.value, p[i].0).Some? {
          var key := p[i].0;
          assert Keys(p)[i] == key;
          ApplyStepsGet([], steps, key);
          GetAllStepValue(query.value, key);
        }
      }
      p
  }

  /** What `getAll` should send under `key`: the query's value under the
      truthiness rule of that key, and nothing for a key it does not know. */
  function ExpectedParam(q: QueryUserDto, key: string): Option<string> {
    if key == "role" then (if Truthy(q.role) then q.role else None)
    else if key == "isVerified" then (if q.isVerified.Some? then Some(BoolString(q.isVerified.value)) else None)
    else if key == "isActive" then (if q.isActive.Some? then Some(BoolString(q.isActive.value)) else None)
    else if key == "page" then (if q.page.Some? && q.page.value != 0 then Some(IntToString(q.page.value)) else None)
    else if key == "limit" then (if q.limit.Some? && q.limit.value != 0 then Some(IntToString(q.limit.value)) else None)
    else if key == "search" then (if Truthy(q.search) then q.search else None)
    else if key == "orderBy" then (if Truthy(q.orderBy) then q.orderBy else None)
    else None
  }

  /** `getAll` sends exactly the expected value under every key, and
      nothing at all without a query. */
  lemma GetAllParamsLookup(query: Option<QueryUserDto>, key: string)
    ensures query.None? ==> GetAllParams(query) == []
    ensures query.Some? ==> Get(GetAllParams(query), key) == ExpectedParam(query.value, key)
  {
    if query.Some? {
      ApplyStepsGet([], GetAllSteps(query.value), key);
      GetAllStepValue(query.value, key);
    }
  }

  /** The step list of `getAll` gives each key its expected value. */
  lemma GetAllStepValue(q: QueryUserDto, key: string)
    ensures StepValue(GetAllSteps(q), key) == ExpectedParam(q, key)
  {
    var steps := GetAllSteps(q);
    var t1 := steps[1..];
    var t2 := t1[1..];
    var t3 := t2[1..];
    assert steps == [steps[0]] + t1 && t1 == [t1[0]] + t2 && t2 == [t2[0]] + t3;
    StepValueCons(steps[0], t1, key);
    if key != "role" {
      StepValueCons(t1[0], t2, key);
      if key != "isVerified" {
        StepValueCons(t2[0], t3, key);
        if key != "isActive" {
          GetAllTailValue(q, key);
        }
      }
    }
  }

  /** The last four steps of `getAll`, for the keys the first three do not set. */
  lemma GetAllTailValue(q: QueryUserDto, key: string)
    requires key != "role" && key != "isVerified" && key != "isActive"
    ensures StepValue(GetAllSteps(q)[3..], key) == ExpectedParam(q, key)
  {
    var t3 := GetAllSteps(q)[3..];
    var t4 := t3[1..];
    var t5 := t4[1..];
    var t6 := t5[1..];
    assert t3 == [t3[0]] + t4 && t4 == [t4[0]] + t5 && t5 == [t5[0]] + t6 && t6 == [t6[0]] + [];
    StepValueCons(t3[0], t4, key);
    if key != "page" {
      StepValueCons(t4[0], t5, key);
      if key != "limit" {
        StepValueCons(t5[0], t6, key);
        if key != "search" {
          StepValueCons(t6[0], [], key);
        }
      }
    }
  }

  /** Page 0 and limit 0 are dropped like absent values, while `false` flags
      are still sent. */
  lemma ZeroPageOmittedFalseFlagSent(q: QueryUserDto)
    requires q.page == Some(0) && q.isActive == Some(false)
    ensures Get(GetAllParams(Some(q)), "page") == None
    ensures Get(GetAllParams(Some(q)), "isActive") == Some("false")
  {
    GetAllParamsLookup(Some(q), "page");
    GetAllParamsLookup(Some(q), "isActive");
  }

  /** A DTO property value as `Object.keys(dto)` meets it. */
  datatype FieldValue = Undefined | Null | Str(s: string)

  /** The DTO's own properties, in key order. */
  type DtoFields = seq<(string, FieldValue)>

  /** The `createUser` form's properties in the order the form object declares them. */
  function UserDtoFields(dto: CreateUserDto): (fields: DtoFields)
    ensures |fields| == 5
    ensures forall i :: 0 <= i < |fields| ==> fields[i].1.Str?
  {
    [("firstName", Str(dto.firstName)), ("lastName", Str(dto.lastName)), ("email", Str(dto.email)),
     ("phone", Str(dto.phone)), ("password", Str(dto.password))]
  }

  /** Whether a property value is appended: defined and non-null, and for
      the profile update also non-empty. */
  predicate Appended(v: FieldValue, dropEmpty: bool) {
    v.Str? && !(dropEmpty && v.s == "")
  }

  /** The text entries the `forEach` over the DTO appends, in key order. */
  function KeptFields(fields: DtoFields, dropEmpty: bool): (form: FormData)
    ensures |form| <= |fields|
    ensures forall i :: 0 <= i < |form| ==> form[i].1.Text?
    decreases |fields|
  {
    if fields == [] then []
    else
      var last := fields[|fields| - 1];
      KeptFields(fields[..|fields| - 1], dropEmpty)
        + (if Appended(last.1, dropEmpty) then [(last.0, Text(last.1.s))] else [])
  }

  /** Keeping distributes over concatenation, so the entries keep the
      relative order of the DTO's keys. */
  lemma {:induction false} KeptFieldsConcat(a: DtoFields, b: DtoFields, dropEmpty: bool)
    ensures KeptFields(a + b, dropEmpty) == KeptFields(a, dropEmpty) + KeptFields(b, dropEmpty)
    decreases |b|
  {
    if b != [] {
      var b' := b[..|b| - 1];
      assert (a + b)[..|a + b| - 1] == a + b';
      assert (a + b)[|a + b| - 1] == b[|b| - 1];
      KeptFieldsConcat(a, b', dropEmpty);
    } else {
      assert a + b == a;
    }
  }

  /** An entry is in the form exactly when the DTO has that key with that
      string value (and, for the profile update, the value is non-empty). */
  lemma {:induction false} KeptFieldsMembers(fields: DtoFields, dropEmpty: bool, key: string, text: string)
    ensures (key, Text(text)) in KeptFields(fields, dropEmpty)
            <==> (!dropEmpty || text != "") && exists i :: 0 <= i < |fields| && fields[i] == (key, Str(text))
    decreases |fields|
  {
    if fields != [] {
      var init := fields[..|fields| - 1];
      KeptFieldsMembers(init, dropEmpty, key, text);
      if exists i :: 0 <= i < |fields| && fields[i] == (key, Str(text)) {
        var i :| 0 <= i < |fields| && fields[i] == (key, Str(text));
        if i < |init| {
          assert init[i] == fields[i];
        }
      }
      forall i | 0 <= i < |init| ensures init[i] == fields[i] {
      }
    }
  }

  /** Every entry the profile update sends, `createUser` would send too, and
      `createUser` keeps an empty string that the update drops. */
  lemma UpdateFormIsSubsetOfCreateForm(fields: DtoFields, key: string, text: string)
    ensures (key, Text(text)) in KeptFields(fields, true) ==> (key, Text(text)) in KeptFields(fields, false)
    ensures (key, Str("")) in fields ==>
              (key, Text("")) in KeptFields(fields, false) && (key, Text("")) !in KeptFields(fields, true)
  {
    KeptFieldsMembers(fields, true, key, text);
    KeptFieldsMembers(fields, false, key, text);
    KeptFieldsMembers(fields, false, key, "");
    KeptFieldsMembers(fields, true, key, "");
  }

  /** The file entry, added after the DTO's entries when a picture is given. */
  function PictureEntry(picture: Option<File>): (tail: FormData)
    ensures |tail| <= 1
    ensures picture.Some? ==> tail == [("profilePicture", Blob(picture.value))]
    ensures picture.None? ==> tail == []
  {
    if picture.Some? then [("profilePicture", Blob(picture.value))] else []
  }

  /** The users page's form: `createUser` sends all five properties in the
      order the form declares them, empty strings included, while the
      profile update sends only the non-empty ones. */
  lemma UserDtoForms(dto: CreateUserDto, key: string, text: string)
    ensures KeptFields(UserDtoFields(dto), false) ==
              [("firstName", Text(dto.firstName)), ("lastName", Text(dto.lastName)), ("email", Text(dto.email)),
               ("phone", Text(dto.phone)), ("password", Text(dto.password))]
    ensures (key, Text(text)) in KeptFields(UserDtoFields(dto), true)
            <==> text != "" && (key, Text(text)) in KeptFields(UserDtoFields(dto), false)
  {
    var f := UserDtoFields(dto);
    KeptFieldsConcat(f[..4], [f[4]], false);
    KeptFieldsConcat(f[..3], [f[3]], false);
    KeptFieldsConcat(f[..2], [f[2]], false);
    KeptFieldsConcat(f[..1], [f[1]], false);
    assert f[..4] + [f[4]] == f;
    assert f[..3] + [f[3]] == f[..4];
    assert f[..2] + [f[2]] == f[..3];
    assert f[..1] + [f[1]] == f[..2];
    KeptFieldsMembers(f, true, key, text);
    KeptFieldsMembers(f, false, key, text);
  }

  /** The `FormData` that `createUser(dto, profilePicture)` posts: every
      property that is neither undefined nor null, empty strings included,
      then the picture. */
  method CreateUserForm(dto: DtoFields, profilePicture: Option<File>) returns (form: FormData)
    ensures form == KeptFields(dto, false) + PictureEntry(profilePicture)
  {
    form := [];
    var i := 0;
    while i < |dto|
      invariant 0 <= i <= |dto|
      invariant form == KeptFields(dto[..i], false)
    {
      var (key, value) := dto[i];
      if value != Undefined && value != Null {
        form := form + [(key, Text(value.s))];
      }
      assert dto[..i + 1][..i] == dto[..i];
      i := i + 1;
    }
    assert dto[..i] == dto;
    if profilePicture.Some? {
      form := form + [("profilePicture", Blob(profilePicture.value))];
    }
  }

  /** The `FormData` that `updateProfile(dto, profilePicture)` patches:
      as for `createUser`, but empty strings are dropped too. */
  method UpdateProfileForm(dto: DtoFields, profilePicture: Option<File>) returns (form: FormData)
    ensures form == KeptFields(dto, true) + PictureEntry(profilePicture)
  {
    form := [];
    var i := 0;
    while i < |dto|
      invariant 0 <= i <= |dto|
      invariant form == KeptFields(dto[..i], true)
    {
      var (key, value) := dto[i];
      if value != Undefined && value != Null && value.s != "" {
        form := form + [(key, Text(value.s))];
      }
      assert dto[..i + 1][..i] == dto[..i];
      i := i + 1;
    }
    assert dto[..i] == dto;
    if profilePicture.Some? {
      form := form + [("profilePicture", Blob(profilePicture.value))];
    }
  }
}
