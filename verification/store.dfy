/** The profile collection as a map from owner to document, and the
    create-or-update step of `POST /api/profile`: `findOneAndUpdate` with a
    top-level `$set` when the owner already has a profile, `new Profile`
    otherwise. */
module ProfileStore {
  import opened Optional
  import opened Profiles

  type Store = map<UserId, Profile>

  /** Every profile is filed under its owner, so there is at most one profile
      per account and looking up by owner finds it. */
  predicate WellFormed(s: Store) {
    forall u :: u in s ==> s[u].user == u
  }

  /** `$set: fields` on a stored profile. */
  function ApplySet(p: Profile, f: ProfileFields): (r: Profile)
    ensures r.experience == p.experience && r.education == p.education
  {
    Profile(
      f.user,
      if f.company.Some? then f.company else p.company,
      if f.website.Some? then f.website else p.website,
      if f.location.Some? then f.location else p.location,
      if f.bio.Some? then f.bio else p.bio,
      if f.status.Some? then f.status else p.status,
      if f.githubusername.Some? then f.githubusername else p.githubusername,
      if f.skills.Some? then f.skills.value else p.skills,
      f.social,
      p.experience,
      p.education)
  }

  /** `$set` is a top-level overwrite: every key of the update record
      replaces the stored value whole (so `social` is replaced, not merged
      link by link), and every other key keeps its stored value. */
  lemma ApplySetOverwritesTopLevel(p: Profile, f: ProfileFields)
    ensures ToDoc(ApplySet(p, f)) == ToDoc(p) + FieldsDoc(f)
  {
    var r := ApplySet(p, f);
    forall key | key in AllKeys
      ensures ProfileAt(r, key) == if FieldsAt(f, key).Some? then FieldsAt(f, key) else ProfileAt(p, key)
    {
    }
    DocEquality(ToDoc(r), ToDoc(p) + FieldsDoc(f));
  }

  /** `new Profile(fields)`. */
  function NewProfile(f: ProfileFields): (r: Profile)
    ensures r.user == f.user && r.experience == [] && r.education == []
  {
    Profile(f.user, f.company, f.website, f.location, f.bio, f.status, f.githubusername,
            f.skills.GetOr([]), f.social, [], [])
  }

  /** A new profile is the update record laid over the schema defaults:
      supplied keys as given, empty arrays and an empty `social` otherwise. */
  lemma NewProfileOverDefaults(f: ProfileFields)
    ensures ToDoc(NewProfile(f)) == Defaults + FieldsDoc(f)
  {
    var r := NewProfile(f);
    forall key | key in AllKeys
      ensures ProfileAt(r, key) == if FieldsAt(f, key).Some? then FieldsAt(f, key)
                                   else if key in Defaults then Some(Defaults[key]) else None
    {
    }
    DocEquality(ToDoc(r), Defaults + FieldsDoc(f));
  }

  /** Two documents with the same keys and values are equal. */
  lemma DocEquality(a: Doc, b: Doc)
    requires forall key :: key in a <==> key in b
    requires forall key :: key in a ==> a[key] == b[key]
    ensures a == b
  {
  }

  /** Create or update the profile of `f.user`. */
  function Upsert(s: Store, f: ProfileFields): (r: Store)
    ensures r.Keys == s.Keys + {f.user}
    ensures forall u :: u in s && u != f.user ==> r[u] == s[u]
    ensures f.user in s ==> ToDoc(r[f.user]) == ToDoc(s[f.user]) + FieldsDoc(f)
    ensures f.user !in s ==> ToDoc(r[f.user]) == Defaults + FieldsDoc(f)
    ensures r[f.user].user == f.user
    ensures WellFormed(s) ==> WellFormed(r)
  {
    if f.user in s then
      ApplySetOverwritesTopLevel(s[f.user], f);
      s[f.user := ApplySet(s[f.user], f)]
    else
      NewProfileOverDefaults(f);
      s[f.user := NewProfile(f)]
  }

  /** An update keeps the number of profiles; a creation adds exactly one. */
  lemma UpsertCount(s: Store, f: ProfileFields)
    ensures f.user in s ==> |Upsert(s, f)| == |s|
    ensures f.user !in s ==> |Upsert(s, f)| == |s| + 1
  {
    var r := Upsert(s, f);
    if f.user in s {
      assert r.Keys == s.Keys;
    } else {
      assert r.Keys == s.Keys + {f.user};
    }
  }

  /** `$set` twice with the same record is `$set` once. */
  lemma ApplySetIdempotent(p: Profile, f: ProfileFields)
    ensures ApplySet(ApplySet(p, f), f) == ApplySet(p, f)
  {
    var once := ApplySet(p, f);
    ApplySetOverwritesTopLevel(p, f);
    ApplySetOverwritesTopLevel(once, f);
    assert ToDoc(ApplySet(once, f)) == ToDoc(once) + FieldsDoc(f) == ToDoc(p) + FieldsDoc(f) + FieldsDoc(f);
    assert ToDoc(p) + FieldsDoc(f) + FieldsDoc(f) == ToDoc(p) + FieldsDoc(f);
    ToDocInjective(ApplySet(once, f), once);
  }

  /** A freshly created profile already carries every key of its record. */
  lemma ApplySetOnNew(f: ProfileFields)
    ensures ApplySet(NewProfile(f), f) == NewProfile(f)
  {
    var p := NewProfile(f);
    NewProfileOverDefaults(f);
    ApplySetOverwritesTopLevel(p, f);
    assert ToDoc(ApplySet(p, f)) == Defaults + FieldsDoc(f) + FieldsDoc(f);
    assert Defaults + FieldsDoc(f) + FieldsDoc(f) == Defaults + FieldsDoc(f);
    ToDocInjective(ApplySet(p, f), p);
  }

  /** Submitting the same profile form twice leaves the store as submitting
      it once. */
  lemma UpsertIdempotent(s: Store, f: ProfileFields)
    ensures Upsert(Upsert(s, f), f) == Upsert(s, f)
  {
    if f.user in s {
      ApplySetIdempotent(s[f.user], f);
    } else {
      ApplySetOnNew(f);
    }
  }
}
