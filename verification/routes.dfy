/** The profile routes that change or read the caller's own profile, as
    functions from (store, authenticated user, request) to (response, new
    store). The authenticated user id stands for `req.user.id`; the entry id
    the document store would generate is passed in as `freshId`. */
module ProfileRoutes {
  import opened Optional
  import opened Validation
  import opened Entries
  import opened Profiles
  import opened Reconciler
  import opened ProfileStore

  /** What the handler sends: `res.json(profile)`, `res.json({ errors })`,
      `res.json({ msg })` or `res.send(text)`. */
  datatype Body =
    | ProfileJson(profile: Profile)
    | ErrorsJson(errors: seq<string>)
    | MsgJson(msg: string)
    | PlainText(text: string)

  datatype Response = Response(status: int, body: Body)

  /** The response together with the store after the request. */
  datatype Reply = Reply(response: Response, store: Store)

  const NoProfileMsg: string := "There is no profile for this user"
  /** Sent by the `catch` block, here always reached through a missing profile. */
  const ServerErrorText: string := "Server Error"
  /** Sent when the entry to delete is not in the profile. */
  const EntryMissingMsg: string := "Server error"

  /** `GET /api/profile/me`. */
  function GetMine(s: Store, u: UserId): (r: Response)
    ensures r.status == 200 <==> u in s
    ensures u in s ==> r.body == ProfileJson(s[u])
    ensures u !in s ==> r == Response(400, MsgJson(NoProfileMsg))
  {
    if u in s then Response(200, ProfileJson(s[u])) else Response(400, MsgJson(NoProfileMsg))
  }

  function ProfileChecks(form: ProfileForm): seq<Check> {
    [Check(form.status, "Status is required"), Check(form.skills, "Skills is required")]
  }

  /** The errors the create route should report: the message of each
      missing required field, in declaration order. */
  function ProfileErrors(form: ProfileForm): seq<string> {
    Missing(form.status, "Status is required") + Missing(form.skills, "Skills is required")
  }

  /** The create route answers 400 exactly when status or skills is
      missing, and names each missing one, once, in declaration order. */
  lemma ProfileChecksReport(form: ProfileForm)
    ensures var e := Failures(ProfileChecks(form));
      && e == ProfileErrors(form)
      && (|e| == 0 <==> Truthy(form.status) && Truthy(form.skills))
      && ("Status is required" in e <==> !Truthy(form.status))
      && ("Skills is required" in e <==> !Truthy(form.skills))
  {
    var c := ProfileChecks(form);
    assert c == [c[0]] + [c[1]];
    FailuresAppend([c[0]], [c[1]]);
    FailuresOne(c[0]);
    FailuresOne(c[1]);
    assert c[0].message[1] != c[1].message[1];
  }

  /** `POST /api/profile`: validate, build the update record, upsert. */
  function CreateOrUpdate(s: Store, u: UserId, form: ProfileForm): (r: Reply)
    ensures r.response.status == 400 <==> !Truthy(form.status) || !Truthy(form.skills)
    ensures r.response.status == 400 ==> r.store == s && r.response.body == ErrorsJson(ProfileErrors(form))
    ensures r.response.status == 400 ==>
      && ("Status is required" in r.response.body.errors <==> !Truthy(form.status))
      && ("Skills is required" in r.response.body.errors <==> !Truthy(form.skills))
    ensures r.response.status != 400 ==>
      && r.response.status == 200
      && r.store == Upsert(s, BuildFields(u, form))
      && u in r.store && r.response.body == ProfileJson(r.store[u])
    ensures WellFormed(s) ==> WellFormed(r.store)
  {
    var errors := Failures(ProfileChecks(form));
    ProfileChecksReport(form);
    if |errors| > 0 then Reply(Response(400, ErrorsJson(errors)), s)
    else
      var s' := Upsert(s, BuildFields(u, form));
      Reply(Response(200, ProfileJson(s'[u])), s')
  }

  /** Sending the same profile form twice leaves the store as sending it once. */
  lemma CreateOrUpdateIdempotent(s: Store, u: UserId, form: ProfileForm)
    ensures var once := CreateOrUpdate(s, u, form).store;
      CreateOrUpdate(once, u, form).store == once
  {
    if Truthy(form.status) && Truthy(form.skills) {
      UpsertIdempotent(s, BuildFields(u, form));
    }
  }

  /** After a successful create-or-update, `GET /me` finds the profile. */
  lemma CreateThenGetMine(s: Store, u: UserId, form: ProfileForm)
    requires Truthy(form.status) && Truthy(form.skills)
    ensures var r := CreateOrUpdate(s, u, form);
      GetMine(r.store, u) == Response(200, r.response.body)
  {
  }

  function ExperienceChecks(form: ExperienceForm): seq<Check> {
    [Check(form.title, "Title is required"), Check(form.company, "Company is required"),
     Check(form.from, "From Date is required")]
  }

  predicate ExperienceValid(form: ExperienceForm) {
    Truthy(form.title) && Truthy(form.company) && Truthy(form.from)
  }

  /** The errors the experience route should report: the message of each
      missing required field, in declaration order. */
  function ExperienceErrors(form: ExperienceForm): seq<string> {
    Missing(form.title, "Title is required") + Missing(form.company, "Company is required")
      + Missing(form.from, "From Date is required")
  }

  /** Experience validation passes exactly when title, company and from are
      present, and otherwise names each missing one, once, in declaration
      order. */
  lemma ExperienceChecksReport(form: ExperienceForm)
    ensures var e := Failures(ExperienceChecks(form));
      && e == ExperienceErrors(form)
      && (|e| == 0 <==> ExperienceValid(form))
      && ("Title is required" in e <==> !Truthy(form.title))
      && ("Company is required" in e <==> !Truthy(form.company))
      && ("From Date is required" in e <==> !Truthy(form.from))
  {
    var c := ExperienceChecks(form);
    assert c == [c[0]] + [c[1]] + [c[2]];
    FailuresAppend([c[0]] + [c[1]], [c[2]]);
    FailuresAppend([c[0]], [c[1]]);
    FailuresOne(c[0]);
    FailuresOne(c[1]);
    FailuresOne(c[2]);
  }

  /** `PUT /api/profile/experience`. */
  function AddExperience(s: Store, u: UserId, form: ExperienceForm, freshId: EntryId): (r: Reply)
    ensures !ExperienceValid(form) ==>
      && r.store == s && r.response.status == 400
      && r.response.body == ErrorsJson(ExperienceErrors(form))
      && ("Title is required" in r.response.body.errors <==> !Truthy(form.title))
      && ("Company is required" in r.response.body.errors <==> !Truthy(form.company))
      && ("From Date is required" in r.response.body.errors <==> !Truthy(form.from))
    ensures ExperienceValid(form) && u !in s ==> r == Reply(Response(500, PlainText(ServerErrorText)), s)
    ensures ExperienceValid(form) && u in s ==>
      && r.response.status == 200
      && r.store.Keys == s.Keys
      && (forall v :: v in s && v != u ==> r.store[v] == s[v])
      && var before, after := s[u], r.store[u];
      && after == before.(experience := after.experience)
      && |after.experience| == |before.experience| + 1
      && after.experience[0] == Entry(freshId, form)
      && after.experience[1..] == before.experience
      && r.response.body == ProfileJson(after)
    ensures WellFormed(s) ==> WellFormed(r.store)
  {
    var errors := Failures(ExperienceChecks(form));
    ExperienceChecksReport(form);
    if |errors| > 0 then Reply(Response(400, ErrorsJson(errors)), s)
    else if u !in s then Reply(Response(500, PlainText(ServerErrorText)), s)
    else
      var p := s[u].(experience := InsertHead(s[u].experience, Entry(freshId, form)));
      Reply(Response(200, ProfileJson(p)), s[u := p])
  }

  /** `DELETE /api/profile/experience/:exp_id`. */
  function RemoveExperience(s: Store, u: UserId, id: EntryId): (r: Reply)
    ensures u !in s ==> r == Reply(Response(500, PlainText(ServerErrorText)), s)
    ensures u in s && !HasId(s[u].experience, id) ==> r == Reply(Response(500, MsgJson(EntryMissingMsg)), s)
    ensures u in s && HasId(s[u].experience, id) ==>
      && r.response.status == 200
      && r.store.Keys == s.Keys
      && (forall v :: v in s && v != u ==> r.store[v] == s[v])
      && var before, after := s[u], r.store[u];
      && after == before.(experience := after.experience)
      && Some(after.experience) == Remove(before.experience, id)
      && |after.experience| == |before.experience| - 1
      && r.response.body == ProfileJson(after)
    ensures WellFormed(s) ==> WellFormed(r.store)
  {
    if u !in s then Reply(Response(500, PlainText(ServerErrorText)), s)
    else
      match Remove(s[u].experience, id)
      case None => Reply(Response(500, MsgJson(EntryMissingMsg)), s)
      case Some(rest) =>
        var p := s[u].(experience := rest);
        Reply(Response(200, ProfileJson(p)), s[u := p])
  }

  /** Deleting the experience entry just added restores the store. */
  lemma RemoveExperienceUndoesAdd(s: Store, u: UserId, form: ExperienceForm, freshId: EntryId)
    requires u in s && ExperienceValid(form)
    ensures RemoveExperience(AddExperience(s, u, form, freshId).store, u, freshId).store == s
  {
    RemoveUndoesInsert(s[u].experience, Entry(freshId, form));
    var added := AddExperience(s, u, form, freshId).store;
    assert added[u].experience == InsertHead(s[u].experience, Entry(freshId, form));
    assert s[u := s[u]] == s;
  }

  function EducationChecks(form: EducationForm): seq<Check> {
    [Check(form.school, "School is required"), Check(form.degree, "Degree is required"),
     Check(form.from, "From Date is required"), Check(form.fieldofstudy, "Field Of Study is required")]
  }

  predicate EducationValid(form: EducationForm) {
    Truthy(form.school) && Truthy(form.degree) && Truthy(form.from) && Truthy(form.fieldofstudy)
  }

  /** The errors the education route should report: the message of each
      missing required field, in declaration order. */
  function EducationErrors(form: EducationForm): seq<string> {
    Missing(form.school, "School is required") + Missing(form.degree, "Degree is required")
      + Missing(form.from, "From Date is required") + Missing(form.fieldofstudy, "Field Of Study is required")
  }

  /** Each required field's message appears in the expected education
      report exactly when that field is missing. */
  lemma EducationErrorsName(form: EducationForm)
    ensures var e := EducationErrors(form);
      && ("School is required" in e <==> !Truthy(form.school))
      && ("Degree is required" in e <==> !Truthy(form.degree))
      && ("From Date is required" in e <==> !Truthy(form.from))
      && ("Field Of Study is required" in e <==> !Truthy(form.fieldofstudy))
  {
    var m0, m1, m2, m3 := "School is required", "Degree is required", "From Date is required", "Field Of Study is required";
    var e0, e1, e2, e3 := Missing(form.school, m0), Missing(form.degree, m1),
      Missing(form.from, m2), Missing(form.fieldofstudy, m3);
    assert m0[0] != m1[0] && m0[0] != m2[0] && m0[0] != m3[0] && m1[0] != m2[0] && m1[0] != m3[0] && m2[1] != m3[1];
    MissingNamesField(form.school, m0, [], e1 + e2 + e3);
    MissingNamesField(form.degree, m1, e0, e2 + e3);
    MissingNamesField(form.from, m2, e0 + e1, e3);
    MissingNamesField(form.fieldofstudy, m3, e0 + e1 + e2, []);
  }

  /** Education validation passes exactly when school, degree, from and
      fieldofstudy are present, and otherwise names each missing one, once,
      in declaration order. */
  lemma EducationChecksReport(form: EducationForm)
    ensures var e := Failures(EducationChecks(form));
      && e == EducationErrors(form)
      && (|e| == 0 <==> EducationValid(form))
      && ("School is required" in e <==> !Truthy(form.school))
      && ("Degree is required" in e <==> !Truthy(form.degree))
      && ("From Date is required" in e <==> !Truthy(form.from))
      && ("Field Of Study is required" in e <==> !Truthy(form.fieldofstudy))
  {
    var c := EducationChecks(form);
    var c0, c1, c2, c3 := c[0], c[1], c[2], c[3];
    assert c == [c0] + [c1] + [c2] + [c3];
    FailuresAppend([c0] + [c1] + [c2], [c3]);
    FailuresAppend([c0] + [c1], [c2]);
    FailuresAppend([c0], [c1]);
    FailuresOne(c0);
    FailuresOne(c1);
    FailuresOne(c2);
    FailuresOne(c3);
    EducationErrorsName(form);
  }

  /** `PUT /api/profile/education`. */
  function AddEducation(s: Store, u: UserId, form: EducationForm, freshId: EntryId): (r: Reply)
    ensures !EducationValid(form) ==>
      && r.store == s && r.response.status == 400
      && r.response.body == ErrorsJson(EducationErrors(form))
      && ("School is required" in r.response.body.errors <==> !Truthy(form.school))
      && ("Degree is required" in r.response.body.errors <==> !Truthy(form.degree))
      && ("From Date is required" in r.response.body.errors <==> !Truthy(form.from))
      && ("Field Of Study is required" in r.response.body.errors <==> !Truthy(form.fieldofstudy))
    ensures EducationValid(form) && u !in s ==> r == Reply(Response(500, PlainText(ServerErrorText)), s)
    ensures EducationValid(form) && u in s ==>
      && r.response.status == 200
      && r.store.Keys == s.Keys
      && (forall v :: v in s && v != u ==> r.store[v] == s[v])
      && var before, after := s[u], r.store[u];
      && after == before.(education := after.education)
      && |after.education| == |before.education| + 1
      && after.education[0] == Entry(freshId, form)
      && after.education[1..] == before.education
      && r.response.body == ProfileJson(after)
    ensures WellFormed(s) ==> WellFormed(r.store)
  {
    var errors := Failures(EducationChecks(form));
    EducationChecksReport(form);
    if |errors| > 0 then Reply(Response(400, ErrorsJson(errors)), s)
    else if u !in s then Reply(Response(500, PlainText(ServerErrorText)), s)
    else
      var p := s[u].(education := InsertHead(s[u].education, Entry(freshId, form)));
      Reply(Response(200, ProfileJson(p)), s[u := p])
  }

  /** `DELETE /api/profile/education/:edu_id`. */
  function RemoveEducation(s: Store, u: UserId, id: EntryId): (r: Reply)
    ensures u !in s ==> r == Reply(Response(500, PlainText(ServerErrorText)), s)
    ensures u in s && !HasId(s[u].education, id) ==> r == Reply(Response(500, MsgJson(EntryMissingMsg)), s)
    ensures u in s && HasId(s[u].education, id) ==>
      && r.response.status == 200
      && r.store.Keys == s.Keys
      && (forall v :: v in s && v != u ==> r.store[v] == s[v])
      && var before, after := s[u], r.store[u];
      && after == before.(education := after.education)
      && Some(after.education) == Remove(before.education, id)
      && |after.education| == |before.education| - 1
      && r.response.body == ProfileJson(after)
    ensures WellFormed(s) ==> WellFormed(r.store)
  {
    if u !in s then Reply(Response(500, PlainText(ServerErrorText)), s)
    else
      match Remove(s[u].education, id)
      case None => Reply(Response(500, MsgJson(EntryMissingMsg)), s)
      case Some(rest) =>
        var p := s[u].(education := rest);
        Reply(Response(200, ProfileJson(p)), s[u := p])
  }

  /** Deleting the education entry just added restores the store. */
  lemma RemoveEducationUndoesAdd(s: Store, u: UserId, form: EducationForm, freshId: EntryId)
    requires u in s && EducationValid(form)
    ensures RemoveEducation(AddEducation(s, u, form, freshId).store, u, freshId).store == s
  {
    RemoveUndoesInsert(s[u].education, Entry(freshId, form));
    var added := AddEducation(s, u, form, freshId).store;
    assert added[u].education == InsertHead(s[u].education, Entry(freshId, form));
    assert s[u := s[u]] == s;
  }
}
