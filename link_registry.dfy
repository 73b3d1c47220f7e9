/** Link registration for an institution (`register_link_institution`) and
    the lookup of a bank's link (`get_link_by_bank`), over an in-memory store
    of institution and link rows. */
module LinkRegistry {
  import opened BelvoTypes

  const PLACEHOLDER := "test123"
  const SELECT_CODE := "003"
  const MOCKBANK := "ofmockbank_br_retail"
  const MOCKBANK_CODE := "103"
  const USERNAME_TYPE := "username_type"
  const DEFAULT_RESOURCES := ["ACCOUNTS", "TRANSACTIONS", "BALANCES"]
  const VALID := "valid"
  const INSTITUTION_NOT_FOUND := "Institución no encontrada en la base de datos"
  const REGISTER_FAILED := "Error desconocido al registrar el link"

  /** One entry of an institution's `form_fields`. */
  datatype FormField = FormField(name: string, fieldType: string, validation: Option<string>)

  /** The institution columns this code reads. */
  datatype Institution = Institution(
    id: string,
    name: string,
    formFields: Option<seq<FormField>>,
    resources: Option<seq<string>>)

  /** A row of the links table: the columns this code reads or writes, and
      `credentials`, which it never writes. */
  datatype Link = Link(
    id: string,
    institution: string,
    status: string,
    fetchResources: seq<string>,
    credentials: Option<map<string, string>>)

  /** A link as the aggregator returns it, and as the cached path returns it. */
  datatype LinkData = LinkData(id: string, institution: string, status: string, fetchResources: seq<string>)

  /** A value of the JSON payload posted to the aggregator. */
  datatype PayloadValue = Text(text: string) | Names(names: seq<string>)

  type Payload = map<string, PayloadValue>

  /** `query(...).filter(...).first()`: the index of the first row that
      satisfies `p`, if any. */
  function FirstWhere<T>(rows: seq<T>, p: T -> bool): (r: Option<nat>)
    ensures r.Some? ==> r.value < |rows| && p(rows[r.value])
    ensures r.Some? ==> forall j :: 0 <= j < r.value ==> !p(rows[j])
    ensures r.None? <==> forall j :: 0 <= j < |rows| ==> !p(rows[j])
  {
    if rows == [] then None
    else if p(rows[0]) then Some(0)
    else match FirstWhere(rows[1..], p)
      case None => None
      case Some(i) => Some(i + 1)
  }

  function InstitutionIndex(institutions: seq<Institution>, name: string): Option<nat> {
    FirstWhere(institutions, (i: Institution) => i.name == name)
  }

  function LinkIndex(links: seq<Link>, institution: string): Option<nat> {
    FirstWhere(links, (l: Link) => l.institution == institution)
  }

  /** `get_link_by_bank`: the id of the first link of the bank, or a 404. */
  function GetLinkByBank(links: seq<Link>, bankName: string): (r: Result<string, Error>)
    ensures r.Success? <==> exists j :: 0 <= j < |links| && links[j].institution == bankName
    ensures r.Success? ==> exists j :: 0 <= j < |links| && links[j].institution == bankName && links[j].id == r.value &&
                                       forall i :: 0 <= i < j ==> links[i].institution != bankName
    ensures r.Failure? ==> r.error == HttpException(404, Message("No se encontró un link para el banco " + bankName))
  {
    match LinkIndex(links, bankName)
    case None => Failure(HttpException(404, Message("No se encontró un link para el banco " + bankName)))
    case Some(j) => Success(links[j].id)
  }

  /** The value one form field contributes: a select field always ends as
      "003" (line 94 overwrites the "103" of line 93); any other field gets a
      string generated from its validation pattern, or the placeholder when
      the pattern is absent or empty. */
  function FieldValue(field: FormField, xeger: string -> string): (v: string)
    ensures field.fieldType == "select" ==> v == SELECT_CODE
    ensures field.fieldType != "select" && (field.validation.None? || field.validation.value == "") ==> v == PLACEHOLDER
    ensures field.fieldType != "select" && field.validation.Some? && field.validation.value != "" ==>
              v == xeger(field.validation.value)
  {
    if field.fieldType == "select" then SELECT_CODE
    else if field.validation.Some? && field.validation.value != "" then xeger(field.validation.value)
    else PLACEHOLDER
  }

  /** The credentials dict after the fields loop: fields are written in order,
      so a later field of the same name overwrites an earlier one. */
  function FieldCredentials(fields: seq<FormField>, xeger: string -> string): map<string, string> {
    if fields == [] then map[]
    else FieldCredentials(fields[..|fields| - 1], xeger)[fields[|fields| - 1].name := FieldValue(fields[|fields| - 1], xeger)]
  }

  /** The form fields of an institution; a missing list counts as empty. */
  function FormFieldsOf(institution: Institution): seq<FormField> {
    if institution.formFields.Some? then institution.formFields.value else []
  }

  /** The credentials sent for an institution: the fields' values, and for
      the mock bank a `username_type` of "103". */
  function Credentials(institution: Institution, xeger: string -> string): map<string, string> {
    var fromFields := FieldCredentials(FormFieldsOf(institution), xeger);
    if institution.name == MOCKBANK then fromFields[USERNAME_TYPE := MOCKBANK_CODE] else fromFields
  }

  /** The names declared by a list of form fields. */
  function FieldNames(fields: seq<FormField>): set<string> {
    set k | 0 <= k < |fields| :: fields[k].name
  }

  /** True when no field after position k has the same name as field k. */
  predicate LastOfItsName(fields: seq<FormField>, k: int)
    requires 0 <= k < |fields|
  {
    forall j :: k < j < |fields| ==> fields[j].name != fields[k].name
  }

  /** Every field name becomes a key, and nothing else does. */
  lemma {:induction false} FieldCredentialsKeys(fields: seq<FormField>, xeger: string -> string)
    ensures FieldCredentials(fields, xeger).Keys == FieldNames(fields)
    decreases |fields|
  {
    if fields != [] {
      var init := fields[..|fields| - 1];
      FieldCredentialsKeys(init, xeger);
      assert FieldNames(fields) == FieldNames(init) + {fields[|fields| - 1].name} by {
        forall n | n in FieldNames(fields) ensures n in FieldNames(init) + {fields[|fields| - 1].name} {
          var k :| 0 <= k < |fields| && fields[k].name == n;
          if k < |fields| - 1 {
            assert init[k] == fields[k];
          }
        }
        forall n | n in FieldNames(init) ensures n in FieldNames(fields) {
          var k :| 0 <= k < |init| && init[k].name == n;
          assert fields[k] == init[k];
        }
      }
    }
  }

  /** The last field of each name decides the value under that name. */
  lemma {:induction false} LastFieldWins(fields: seq<FormField>, k: int, xeger: string -> string)
    requires 0 <= k < |fields| && LastOfItsName(fields, k)
    ensures fields[k].name in FieldCredentials(fields, xeger)
    ensures FieldCredentials(fields, xeger)[fields[k].name] == FieldValue(fields[k], xeger)
    decreases |fields|
  {
    if k < |fields| - 1 {
      var init := fields[..|fields| - 1];
      assert init[k] == fields[k];
      LastFieldWins(init, k, xeger);
    }
  }

  /** The synthesised credential keys are exactly the field names, plus
      `username_type` for the mock bank, whose value is then "103" whether or
      not a form field has that name. */
  lemma CredentialsKeys(institution: Institution, xeger: string -> string)
    ensures Credentials(institution, xeger).Keys ==
            FieldNames(FormFieldsOf(institution)) + (if institution.name == MOCKBANK then {USERNAME_TYPE} else {})
    ensures institution.name == MOCKBANK ==> Credentials(institution, xeger)[USERNAME_TYPE] == MOCKBANK_CODE
    ensures institution.name != MOCKBANK && USERNAME_TYPE !in FieldNames(FormFieldsOf(institution)) ==>
              USERNAME_TYPE !in Credentials(institution, xeger)
  {
    FieldCredentialsKeys(FormFieldsOf(institution), xeger);
  }

  /** The last field of each name decides its synthesised value, so such a
      select field reads "003" and such a non-select field without a pattern
      reads "test123"; only the mock bank's `username_type` is forced to "103",
      whatever its fields say. */
  lemma CredentialsValues(institution: Institution, k: int, xeger: string -> string)
    requires 0 <= k < |FormFieldsOf(institution)| && LastOfItsName(FormFieldsOf(institution), k)
    ensures FormFieldsOf(institution)[k].name in Credentials(institution, xeger)
    ensures institution.name == MOCKBANK && FormFieldsOf(institution)[k].name == USERNAME_TYPE ==>
              Credentials(institution, xeger)[USERNAME_TYPE] == MOCKBANK_CODE
    ensures !(institution.name == MOCKBANK && FormFieldsOf(institution)[k].name == USERNAME_TYPE) ==>
              Credentials(institution, xeger)[FormFieldsOf(institution)[k].name] == FieldValue(FormFieldsOf(institution)[k], xeger)
  {
    LastFieldWins(FormFieldsOf(institution), k, xeger);
  }

  /** `institution.resources or [...]`: the institution's resources, or the
      default three when they are missing or empty. */
  function FetchResources(institution: Institution): (r: seq<string>)
    ensures r != []
    ensures institution.resources.Some? && institution.resources.value != [] ==> r == institution.resources.value
    ensures institution.resources.None? || institution.resources.value == [] ==> r == DEFAULT_RESOURCES
  {
    if institution.resources.Some? && institution.resources.value != [] then institution.resources.value
    else DEFAULT_RESOURCES
  }

  /** The posted payload: institution name and fetch resources, then the
      credentials spread over them, so a credential key overrides a base key. */
  function BuildPayload(institution: Institution, credentials: map<string, string>): (p: Payload)
    ensures p.Keys == credentials.Keys + {"institution", "fetch_resources"}
    ensures forall k :: k in credentials ==> p[k] == Text(credentials[k])
    ensures "institution" !in credentials ==> p["institution"] == Text(institution.name)
    ensures "fetch_resources" !in credentials ==> p["fetch_resources"] == Names(FetchResources(institution))
  {
    map["institution" := Text(institution.name), "fetch_resources" := Names(FetchResources(institution))]
      + map k | k in credentials :: Text(credentials[k])
  }

  /** The store after a successful registration: the existing link (if any) is
      updated in place with the returned id, status and fetch resources;
      otherwise one new link, built from the response, is appended. */
  function Upsert(links: seq<Link>, existing: Option<nat>, data: LinkData): (r: seq<Link>)
    requires existing.Some? ==> existing.value < |links|
    ensures existing.Some? ==> |r| == |links|
    ensures existing.Some? ==> forall j :: 0 <= j < |links| && j != existing.value ==> r[j] == links[j]
    ensures existing.Some? ==>
              var before := links[existing.value]; var after := r[existing.value];
              after.id == data.id && after.status == data.status && after.fetchResources == data.fetchResources &&
              after.institution == before.institution && after.credentials == before.credentials
    ensures existing.None? ==> |r| == |links| + 1 && r[..|links|] == links
    ensures existing.None? ==> r[|links|] == Link(data.id, data.institution, data.status, data.fetchResources, None)
  {
    match existing
    case Some(i) => links[i := links[i].(id := data.id, status := data.status, fetchResources := data.fetchResources)]
    case None => links + [Link(data.id, data.institution, data.status, data.fetchResources, None)]
  }

  /** After a registration that upserted a "valid" link, the next registration
      for the institution finds it and answers from the store: when a link
      existed it keeps its place and institution; a new one is found when the
      aggregator named the same institution. */
  lemma ValidLinkIsCachedNextTime(links: seq<Link>, name: string, data: LinkData)
    requires data.status == VALID
    requires LinkIndex(links, name).Some? || data.institution == name
    ensures var after := Upsert(links, LinkIndex(links, name), data);
      LinkIndex(after, name).Some? && after[LinkIndex(after, name).value].status == VALID
  {
  }

  /** The fields loop of lines 85-97: one credentials dict built in place. */
  method SynthesizeCredentials(institution: Institution, xeger: string -> string)
    returns (credentials: map<string, string>)
    ensures credentials == Credentials(institution, xeger)
  {
    var fields := if institution.formFields.Some? then institution.formFields.value else [];
    credentials := map[];
    var i := 0;
    while i < |fields|
      invariant 0 <= i <= |fields|
      invariant credentials == FieldCredentials(fields[..i], xeger)
    {
      var field := fields[i];
      var name := field.name;
      var pattern := field.validation;
      credentials := credentials[name := if pattern.Some? && pattern.value != "" then xeger(pattern.value) else PLACEHOLDER];
      if field.fieldType == "select" {
        if institution.name == MOCKBANK {
          credentials := credentials[name := MOCKBANK_CODE];
        }
        credentials := credentials[name := SELECT_CODE];
      }
      assert fields[..i + 1][..i] == fields[..i];
      i := i + 1;
    }
    assert fields[..i] == fields;
    if institution.name == MOCKBANK {
      credentials := credentials[USERNAME_TYPE := MOCKBANK_CODE];
    }
  }

  /** The persistence store: the institutions and links tables. */
  class Database {
    var institutions: seq<Institution>
    var links: seq<Link>

    constructor (institutions: seq<Institution>, links: seq<Link>)
      ensures this.institutions == institutions && this.links == links
    {
      this.institutions := institutions;
      this.links := links;
    }

    /** `register_link_institution`. `xeger` stands for the regex-based string
        generator, `upstream` for the aggregator's link-creation endpoint, and
        `sent` is the payload posted to it (None when no call is made). */
    method RegisterLinkInstitution(institutionName: string, xeger: string -> string, upstream: Payload -> Response<LinkData>)
      returns (r: Result<LinkData, Error>, sent: Option<Payload>)
      modifies this
      ensures institutions == old(institutions)
      ensures InstitutionIndex(institutions, institutionName).None? ==>
                r == Failure(HttpException(404, Message(INSTITUTION_NOT_FOUND))) && sent.None? && links == old(links)
      ensures InstitutionIndex(institutions, institutionName).Some? ==>
                var institution := institutions[InstitutionIndex(institutions, institutionName).value];
                var existing := LinkIndex(old(links), institution.name);
                if existing.Some? && old(links)[existing.value].status == VALID then
                  var cached := old(links)[existing.value];
                  && r == Success(LinkData(cached.id, cached.institution, cached.status, cached.fetchResources))
                  && sent.None? && links == old(links)
                else
                  var payload := BuildPayload(institution, Credentials(institution, xeger));
                  var response := upstream(payload);
                  && sent == Some(payload)
                  && (IsHttpError(response.statusCode) ==>
                        r == Failure(HttpException(response.statusCode, ErrorDetail(response, REGISTER_FAILED)))
                        && links == old(links))
                  && (!IsHttpError(response.statusCode) && response.json.Expected? ==>
                        r == Success(response.json.value) && links == Upsert(old(links), existing, response.json.value))
                  && (!IsHttpError(response.statusCode) && !response.json.Expected? ==>
                        r.Failure? && r.error.Crash? && links == old(links))
    {
      var found := InstitutionIndex(institutions, institutionName);
      if found.None? {
        return Failure(HttpException(404, Message(INSTITUTION_NOT_FOUND))), None;
      }
      var institution := institutions[found.value];

      var existing := LinkIndex(links, institution.name);
      if existing.Some? && links[existing.value].status == VALID {
        var link := links[existing.value];
        return Success(LinkData(link.id, link.institution, link.status, link.fetchResources)), None;
      }

      var credentials := SynthesizeCredentials(institution, xeger);
      var payload := BuildPayload(institution, credentials);
      sent := Some(payload);

      var response := upstream(payload);
      if IsHttpError(response.statusCode) {
        return Failure(HttpException(response.statusCode, ErrorDetail(response, REGISTER_FAILED))), sent;
      }
      if !response.json.Expected? {
        // `r.json()` raises on a non-JSON body; `data["id"]` on any other document.
        return Failure(Crash("the link response is not a link object")), sent;
      }
      var data := response.json.value;

      match existing {
        case Some(i) =>
          links := links[i := links[i].(id := data.id, status := data.status, fetchResources := data.fetchResources)];
        case None =>
          links := links + [Link(data.id, data.institution, data.status, data.fetchResources, None)];
      }
      r := Success(data);
    }
  }
}
