/** server/models/Profile.js: the profile document, its experience and
    education entries and its social links, with the schema's required
    paths as predicates and its defaults applied where entries are made. */
module ProfileModel {
  import opened Js
  import opened Mongoose

  /** A Date path, as milliseconds since the epoch. */
  type Date = int

  /** One `experience` entry; `id` is its `_id`. */
  datatype Experience = Experience(
    id: string,
    title: Option<string>,
    company: Option<string>,
    location: Option<string>,
    from: Option<Date>,
    to: Option<Date>,
    current: bool,
    description: Option<string>)

  /** One `education` entry; `id` is its `_id`. */
  datatype Education = Education(
    id: string,
    school: Option<string>,
    degree: Option<string>,
    fieldofstudy: Option<string>,
    from: Option<Date>,
    to: Option<Date>,
    current: bool,
    description: Option<string>)

  /** The six optional links of `social`. */
  datatype Social = Social(
    youtube: Option<string>,
    twitter: Option<string>,
    facebook: Option<string>,
    linkedin: Option<string>,
    instagram: Option<string>,
    discord: Option<string>)

  /** A profile; `id` is its `_id`, `user` the owner's id. The path the
      schema spells `guthubusername` keeps that spelling. */
  datatype Profile = Profile(
    id: string,
    user: Option<string>,
    company: Option<string>,
    website: Option<string>,
    location: Option<string>,
    status: Option<string>,
    skills: Option<seq<string>>,
    bio: Option<string>,
    guthubusername: Option<string>,
    experience: seq<Experience>,
    education: seq<Education>,
    social: Social)

  /** An experience entry as a request body gives it. */
  datatype ExperienceInput = ExperienceInput(
    title: Option<string>,
    company: Option<string>,
    location: Option<string>,
    from: Option<Date>,
    to: Option<Date>,
    current: Option<bool>,
    description: Option<string>)

  /** An education entry as a request body gives it. */
  datatype EducationInput = EducationInput(
    school: Option<string>,
    degree: Option<string>,
    fieldofstudy: Option<string>,
    from: Option<Date>,
    to: Option<Date>,
    current: Option<bool>,
    description: Option<string>)

  /** `title` and `company` are required; `from` and `to` are not. */
  predicate ExperienceValid(e: Experience)
  {
    RequiredString(e.title) && RequiredString(e.company)
  }

  /** `school`, `degree`, `fieldofstudy`, `from` and `to` are all required. */
  predicate EducationValid(e: Education)
  {
    RequiredString(e.school) && RequiredString(e.degree) && RequiredString(e.fieldofstudy)
    && e.from.Some? && e.to.Some?
  }

  /** `status` is required, and so is `skills`, a list of strings (an empty
      list passes Mongoose's array check); every entry must be valid. */
  predicate ProfileValid(p: Profile)
  {
    RequiredString(p.status) && p.skills.Some?
    && (forall i :: 0 <= i < |p.experience| ==> ExperienceValid(p.experience[i]))
    && (forall i :: 0 <= i < |p.education| ==> EducationValid(p.education[i]))
  }

  /** The entry Mongoose makes from a body: the given paths, `current`
      defaulting to false, and a new `_id`. */
  function NewExperience(id: string, input: ExperienceInput): (e: Experience)
    ensures e.id == id
    ensures e.current == (input.current == Some(true))
    ensures e.title == input.title && e.company == input.company && e.location == input.location
    ensures e.from == input.from && e.to == input.to && e.description == input.description
    ensures ExperienceValid(e) <==> RequiredString(input.title) && RequiredString(input.company)
  {
    Experience(id, input.title, input.company, input.location, input.from, input.to,
               input.current.GetOr(false), input.description)
  }

  /** The entry Mongoose makes from a body: the given paths, `current`
      defaulting to false, and a new `_id`. */
  function NewEducation(id: string, input: EducationInput): (e: Education)
    ensures e.id == id
    ensures e.current == (input.current == Some(true))
    ensures e.school == input.school && e.degree == input.degree && e.fieldofstudy == input.fieldofstudy
    ensures e.from == input.from && e.to == input.to && e.description == input.description
    ensures EducationValid(e) <==> RequiredString(input.school) && RequiredString(input.degree)
                                   && RequiredString(input.fieldofstudy) && input.from.Some? && input.to.Some?
  {
    Education(id, input.school, input.degree, input.fieldofstudy, input.from, input.to,
              input.current.GetOr(false), input.description)
  }
}
