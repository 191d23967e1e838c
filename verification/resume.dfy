/**
 * The structured resume record. The extractor produces it; the template renderer
 * and the portfolio generator read it and never change it.
 * Optional string fields of the source (`gpa`, `link`) are `""` when absent: every
 * consumer only tests them for truthiness, and `undefined` and `''` are both falsy.
 */
module Resume {
  datatype PersonalInfo = PersonalInfo(
    name: string,
    email: string,
    phone: string,
    location: string,
    summary: string,
    linkedin: string,
    github: string)

  datatype Experience = Experience(title: string, company: string, duration: string, description: string)

  datatype Education = Education(degree: string, institution: string, year: string, gpa: string)

  datatype Project = Project(name: string, description: string, technologies: string, link: string)

  datatype ResumeData = ResumeData(
    personalInfo: PersonalInfo,
    experience: seq<Experience>,
    education: seq<Education>,
    skills: seq<string>,
    projects: seq<Project>)

  const BlankInfo: PersonalInfo := PersonalInfo("", "", "", "", "", "", "")

  /** The record every extraction starts from: all strings empty, all lists empty. */
  const EmptyResume: ResumeData := ResumeData(BlankInfo, [], [], [], [])
}
