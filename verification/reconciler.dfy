/** The field reconciler of `POST /api/profile`: builds the sparse update
    record from the submitted form. */
module Reconciler {
  import opened Optional
  import opened Strings
  import opened Profiles

  /** `skills.split(',').map(skill => skill.trim())`. */
  function ParseSkills(s: string): (r: seq<string>)
    ensures |r| == |Split(s, ',')|
    ensures forall i :: 0 <= i < |r| ==> IsTrimOf(Split(s, ',')[i], r[i])
  {
    var parts := Split(s, ',');
    seq(|parts|, i requires 0 <= i < |parts| => Trim(parts[i]))
  }

  /** One tag per comma-separated piece, in order, empty pieces kept; each
      tag is free of commas and of surrounding white space. */
  lemma ParseSkillsShape(s: string)
    ensures |ParseSkills(s)| == CountChar(s, ',') + 1
    ensures forall i :: 0 <= i < |ParseSkills(s)| ==> ',' !in ParseSkills(s)[i] && NoEdgeSpace(ParseSkills(s)[i])
  {
    SplitLength(s, ',');
    var parts, r := Split(s, ','), ParseSkills(s);
    forall i | 0 <= i < |r| ensures ',' !in r[i] && NoEdgeSpace(r[i]) {
      var a, b :| 0 <= a <= b <= |parts[i]| && r[i] == parts[i][a..b] && AllSpace(parts[i][..a]) && AllSpace(parts[i][b..]) && NoEdgeSpace(r[i]);
      assert forall c :: c in r[i] ==> c in parts[i];
    }
  }

  /** Three comma-separated pieces give three tags, each the trimmed piece. */
  lemma ParseSkillsThree(x: string, y: string, z: string)
    requires ',' !in x && ',' !in y && ',' !in z
    ensures ParseSkills(x + [','] + y + [','] + z) == [Trim(x), Trim(y), Trim(z)]
  {
    var parts := [x, y, z];
    assert parts[1..] == [y, z] && parts[1..][1..] == [z];
    assert Join([z], ',') == z;
    assert Join([y, z], ',') == y + [','] + z;
    assert Join(parts, ',') == x + [','] + (y + [','] + z);
    assert x + [','] + (y + [','] + z) == x + [','] + y + [','] + z;
    SplitJoin(parts, ',');
  }

  /** White space padding a tag is dropped: "a, b ,c" gives "a", "b", "c". */
  lemma ParseSkillsDropsPadding(x: string, c: char, y: string, d: char, z: string)
    requires ',' !in x && ',' !in y && ',' !in z
    requires IsSpace(c) && IsSpace(d)
    requires NoEdgeSpace(x) && NoEdgeSpace(y) && NoEdgeSpace(z)
    ensures ParseSkills(x + [',', c] + y + [d, ','] + z) == [x, y, z]
  {
    var padded := [c] + y + [d];
    assert x + [',', c] + y + [d, ','] + z == x + [','] + padded + [','] + z;
    ParseSkillsThree(x, padded, z);
    TrimKeeps(x);
    TrimStrips(c, y, d);
    TrimKeeps(z);
  }

  /** An empty piece between two commas stays as an empty tag: "a,,c" gives
      "a", "", "c". */
  lemma ParseSkillsKeepsEmpty(x: string, z: string)
    requires ',' !in x && ',' !in z
    requires NoEdgeSpace(x) && NoEdgeSpace(z)
    ensures ParseSkills(x + [',', ','] + z) == [x, "", z]
  {
    assert x + [',', ','] + z == x + [','] + "" + [','] + z;
    ParseSkillsThree(x, "", z);
    TrimKeeps(x);
    TrimKeeps("");
    TrimKeeps(z);
  }

  /** The form input for a social link. */
  function SocialInput(form: ProfileForm, link: Link): Option<string> {
    match link
    case Youtube => form.youtube
    case Twitter => form.twitter
    case Facebook => form.facebook
    case Linkedin => form.linkedin
    case Instagram => form.instagram
  }

  /** Adds `link: value` to the object when the value is truthy. */
  function PutIfTruthy(m: Social, link: Link, o: Option<string>): Social {
    if Truthy(o) then m[link := o.value] else m
  }

  /** `profileFields.social`: starts as `{}` and gains one key per truthy
      social input, holding that input unchanged. */
  function BuildSocial(form: ProfileForm): (r: Social)
    ensures forall link :: link in r <==> Truthy(SocialInput(form, link))
    ensures forall link :: link in r ==> SocialInput(form, link) == Some(r[link])
  {
    var m1 := PutIfTruthy(map[], Youtube, form.youtube);
    var m2 := PutIfTruthy(m1, Twitter, form.twitter);
    var m3 := PutIfTruthy(m2, Facebook, form.facebook);
    var m4 := PutIfTruthy(m3, Linkedin, form.linkedin);
    var m5 := PutIfTruthy(m4, Instagram, form.instagram);
    assert Youtube in m5 <==> Truthy(form.youtube);
    assert Twitter in m5 <==> Truthy(form.twitter);
    assert Facebook in m5 <==> Truthy(form.facebook);
    assert Linkedin in m5 <==> Truthy(form.linkedin);
    assert Instagram in m5 <==> Truthy(form.instagram);
    assert Youtube in m5 ==> m5[Youtube] == form.youtube.value;
    assert Twitter in m5 ==> m5[Twitter] == form.twitter.value;
    assert Facebook in m5 ==> m5[Facebook] == form.facebook.value;
    assert Linkedin in m5 ==> m5[Linkedin] == form.linkedin.value;
    assert Instagram in m5 ==> m5[Instagram] == form.instagram.value;
    m5
  }

  /** `profileFields`: `user` always, each scalar only when truthy and then
      unchanged, `skills` parsed when truthy, `social` always. */
  function BuildFields(user: UserId, form: ProfileForm): (f: ProfileFields)
    ensures f.user == user
    ensures SparseCopy(form.company, f.company) && SparseCopy(form.website, f.website)
    ensures SparseCopy(form.location, f.location) && SparseCopy(form.bio, f.bio)
    ensures SparseCopy(form.status, f.status) && SparseCopy(form.githubusername, f.githubusername)
    ensures Truthy(form.skills) ==> f.skills == Some(ParseSkills(form.skills.value))
    ensures !Truthy(form.skills) ==> f.skills == None
    ensures forall link :: link in f.social <==> Truthy(SocialInput(form, link))
    ensures forall link :: link in f.social ==> SocialInput(form, link) == Some(f.social[link])
  {
    ProfileFields(
      user,
      if Truthy(form.company) then form.company else None,
      if Truthy(form.website) then form.website else None,
      if Truthy(form.location) then form.location else None,
      if Truthy(form.bio) then form.bio else None,
      if Truthy(form.status) then form.status else None,
      if Truthy(form.githubusername) then form.githubusername else None,
      if Truthy(form.skills) then Some(ParseSkills(form.skills.value)) else None,
      BuildSocial(form))
  }

  /** The form input behind a top-level key of the update record. */
  function TopLevelInput(form: ProfileForm, key: Key): Option<string> {
    match key
    case CompanyKey => form.company
    case WebsiteKey => form.website
    case LocationKey => form.location
    case BioKey => form.bio
    case StatusKey => form.status
    case GithubKey => form.githubusername
    case SkillsKey => form.skills
    case _ => None
  }

  /** The keys of the built record are exactly `user`, `social` and the
      optional keys whose input was truthy; a copied value is the input
      itself, so no key is ever set to an empty string. */
  lemma BuildFieldsKeys(user: UserId, form: ProfileForm)
    ensures var d := FieldsDoc(BuildFields(user, form));
      forall key :: key in d <==> key == UserKey || key == SocialKey || Truthy(TopLevelInput(form, key))
    ensures var d := FieldsDoc(BuildFields(user, form));
      forall key :: key in d && key != UserKey && key != SkillsKey && key != SocialKey ==>
        d[key] == Text(TopLevelInput(form, key).value) && |d[key].text| > 0
    ensures FieldsDoc(BuildFields(user, form))[UserKey] == Text(user)
    ensures FieldsDoc(BuildFields(user, form))[SocialKey] == Links(BuildSocial(form))
  {
    var f := BuildFields(user, form);
    var d := FieldsDoc(f);
    forall key ensures key in d <==> key == UserKey || key == SocialKey || Truthy(TopLevelInput(form, key)) {
      assert key in d <==> key in AllKeys && FieldsAt(f, key).Some?;
    }
  }
}
