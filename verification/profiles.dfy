/** The profile document: the form bodies the routes accept, the stored
    profile, the sparse update record built from a form, and a key/value
    view of both that matches how the document store sees them. */
module Profiles {
  import opened Optional
  import opened Entries

  type UserId = string

  /** Body of `POST /api/profile`. */
  datatype ProfileForm = ProfileForm(
    company: Option<string>, website: Option<string>, location: Option<string>,
    bio: Option<string>, status: Option<string>, githubusername: Option<string>,
    skills: Option<string>,
    youtube: Option<string>, facebook: Option<string>, twitter: Option<string>,
    instagram: Option<string>, linkedin: Option<string>)

  /** Body of `PUT /api/profile/experience`; stored verbatim as the entry. */
  datatype ExperienceForm = ExperienceForm(
    title: Option<string>, company: Option<string>, location: Option<string>,
    from: Option<string>, to: Option<string>, current: Option<bool>,
    description: Option<string>)

  /** Body of `PUT /api/profile/education`; stored verbatim as the entry. */
  datatype EducationForm = EducationForm(
    school: Option<string>, degree: Option<string>, fieldofstudy: Option<string>,
    from: Option<string>, to: Option<string>, current: Option<bool>,
    description: Option<string>)

  type Experience = Entry<ExperienceForm>
  type Education = Entry<EducationForm>

  /** The keys the `social` sub-object may hold. */
  datatype Link = Youtube | Twitter | Facebook | Linkedin | Instagram {
    /** The key as it appears in the JSON document. */
    function Name(): string {
      match this
      case Youtube => "youtube"
      case Twitter => "twitter"
      case Facebook => "facebook"
      case Linkedin => "linkedin"
      case Instagram => "instagram"
    }
  }

  /** The `social` sub-object: link to URL, only for supplied links. */
  type Social = map<Link, string>

  /** A stored profile document. Scalar fields the owner never supplied are
      absent; the array fields default to empty. */
  datatype Profile = Profile(
    user: UserId,
    company: Option<string>, website: Option<string>, location: Option<string>,
    bio: Option<string>, status: Option<string>, githubusername: Option<string>,
    skills: seq<string>,
    social: Social,
    experience: seq<Experience>,
    education: seq<Education>)

  /** The sparse update record (`profileFields`): `None` means the key is
      not in the object at all. */
  datatype ProfileFields = ProfileFields(
    user: UserId,
    company: Option<string>, website: Option<string>, location: Option<string>,
    bio: Option<string>, status: Option<string>, githubusername: Option<string>,
    skills: Option<seq<string>>,
    social: Social)

  /** A top-level value of the document. */
  datatype Value =
    | Text(text: string)
    | Texts(items: seq<string>)
    | Links(links: Social)
    | Experiences(experiences: seq<Experience>)
    | Educations(educations: seq<Education>)

  /** The top-level keys of a profile document. */
  datatype Key =
    | UserKey | CompanyKey | WebsiteKey | LocationKey | BioKey | StatusKey | GithubKey
    | SkillsKey | SocialKey | ExperienceKey | EducationKey
  {
    /** The key as it appears in the JSON document. */
    function Name(): string {
      match this
      case UserKey => "user"
      case CompanyKey => "company"
      case WebsiteKey => "website"
      case LocationKey => "location"
      case BioKey => "bio"
      case StatusKey => "status"
      case GithubKey => "githubusername"
      case SkillsKey => "skills"
      case SocialKey => "social"
      case ExperienceKey => "experience"
      case EducationKey => "education"
    }
  }

  type Doc = map<Key, Value>

  const AllKeys: set<Key> :=
    {UserKey, CompanyKey, WebsiteKey, LocationKey, BioKey, StatusKey, GithubKey,
     SkillsKey, SocialKey, ExperienceKey, EducationKey}

  /** The value a present scalar contributes; an absent one contributes no key. */
  function ScalarValue(o: Option<string>): Option<Value> {
    if o.Some? then Some(Text(o.value)) else None
  }

  /** The value stored under `key` in profile `p`, if any. */
  function ProfileAt(p: Profile, key: Key): Option<Value> {
    match key
    case UserKey => Some(Text(p.user))
    case CompanyKey => ScalarValue(p.company)
    case WebsiteKey => ScalarValue(p.website)
    case LocationKey => ScalarValue(p.location)
    case BioKey => ScalarValue(p.bio)
    case StatusKey => ScalarValue(p.status)
    case GithubKey => ScalarValue(p.githubusername)
    case SkillsKey => Some(Texts(p.skills))
    case SocialKey => Some(Links(p.social))
    case ExperienceKey => Some(Experiences(p.experience))
    case EducationKey => Some(Educations(p.education))
  }

  /** The value the update record sets under `key`, if any. */
  function FieldsAt(f: ProfileFields, key: Key): Option<Value> {
    match key
    case UserKey => Some(Text(f.user))
    case CompanyKey => ScalarValue(f.company)
    case WebsiteKey => ScalarValue(f.website)
    case LocationKey => ScalarValue(f.location)
    case BioKey => ScalarValue(f.bio)
    case StatusKey => ScalarValue(f.status)
    case GithubKey => ScalarValue(f.githubusername)
    case SkillsKey => if f.skills.Some? then Some(Texts(f.skills.value)) else None
    case SocialKey => Some(Links(f.social))
    case ExperienceKey => None
    case EducationKey => None
  }

  /** The stored profile as the document store holds it. */
  function ToDoc(p: Profile): Doc {
    map key | key in AllKeys && ProfileAt(p, key).Some? :: ProfileAt(p, key).value
  }

  /** The update record as the object handed to `$set` or to `new Profile`. */
  function FieldsDoc(f: ProfileFields): Doc {
    map key | key in AllKeys && FieldsAt(f, key).Some? :: FieldsAt(f, key).value
  }

  /** The defaults a freshly created profile starts from: empty arrays and
      an empty `social` object. */
  const Defaults: Doc :=
    map[SkillsKey := Texts([]), SocialKey := Links(map[]),
        ExperienceKey := Experiences([]), EducationKey := Educations([])]

  /** The document view loses nothing: two profiles with the same document
      are the same profile. */
  lemma ToDocInjective(p: Profile, q: Profile)
    requires ToDoc(p) == ToDoc(q)
    ensures p == q
  {
    forall key | key in AllKeys ensures ProfileAt(p, key) == ProfileAt(q, key) {
      assert key in ToDoc(p) <==> ProfileAt(p, key).Some?;
      assert key in ToDoc(q) <==> ProfileAt(q, key).Some?;
    }
    assert ProfileAt(p, CompanyKey) == ProfileAt(q, CompanyKey);
    assert ProfileAt(p, WebsiteKey) == ProfileAt(q, WebsiteKey);
    assert ProfileAt(p, LocationKey) == ProfileAt(q, LocationKey);
    assert ProfileAt(p, BioKey) == ProfileAt(q, BioKey);
    assert ProfileAt(p, StatusKey) == ProfileAt(q, StatusKey);
    assert ProfileAt(p, GithubKey) == ProfileAt(q, GithubKey);
  }
}
