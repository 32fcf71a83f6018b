/**
 * `mockInternships.ts`: the 200 sample listings the Internships page shows while the
 * aggregated listing endpoint is not wired in. Listing `i` is built from the fixed tables
 * by taking index `i` modulo each table's length.
 */
module MockInternships {
  import opened Wrappers
  import opened Text

  const Companies: seq<string> := [
    "Google", "Microsoft", "Amazon", "Flipkart", "Swiggy", "Zomato",
    "Infosys", "TCS", "Wipro", "Accenture", "Adobe", "Netflix",
    "Uber", "Ola", "Paytm", "PhonePe", "CRED", "Razorpay"]

  const Roles: seq<string> := [
    "Frontend Developer", "Backend Developer", "Full Stack Developer",
    "React Developer", "MERN Stack Developer", "Data Analyst",
    "Data Scientist", "Machine Learning Intern", "AI Engineer",
    "DevOps Engineer", "Cloud Engineer", "Cybersecurity Analyst",
    "UI/UX Designer", "Product Manager", "QA Automation Engineer"]

  const Locations: seq<string> := ["Bangalore", "Hyderabad", "Delhi", "Mumbai", "Pune", "Chennai", "Remote"]

  const Degrees: seq<string> := ["B.Tech", "B.E", "BCA", "M.Tech", "MCA", "Any Graduate"]

  const Qualifications: seq<string> := [
    "Pursuing or Completed degree in CS/IT",
    "Strong analytical and problem-solving skills",
    "Basic understanding of programming fundamentals",
    "Hands-on experience with projects",
    "Good communication and teamwork"]

  const SkillsPool: seq<string> := [
    "React", "Node.js", "MongoDB", "Python", "SQL", "Java",
    "Docker", "AWS", "Machine Learning", "JavaScript",
    "Tailwind", "Figma", "Linux", "Kubernetes"]

  const MockCount: nat := 200
  const MockSource: string := "Mock Data"
  const MockApplyUrl: string := "#"
  const BaseSalary: nat := 15000
  const SalaryStep: nat := 3000
  /** "0–1 year", with an en dash. */
  const ZeroToOneYear: string := "0\U{2013}1 year"
  const Fresher: string := "Fresher"

  /**
   * One generated listing. The three prose fields (`description`, `aboutCompany`,
   * `fullDescription`) are fixed templates over the title and the company, so they are
   * member functions of the stored fields rather than stored themselves.
   */
  datatype MockInternship = MockInternship(
    id: string,
    title: string,
    companyName: string,
    location: string,
    source: string,
    applyUrl: string,
    internalId: Option<string>,
    salary: string,
    qualification: string,
    degree: string,
    experience: string,
    gapYearsAllowed: string,
    skills: seq<string>)
  {
    /** "Work as a <role> Intern at <company>, contributing to real-world projects." */
    function Description(): string {
      "Work as a " + title + " at " + companyName + ", contributing to real-world projects."
    }

    function AboutCompany(): string {
      companyName + " is a global technology company with a focus on innovation and scalable solutions."
    }

    /**
     * The detail text. The template literal starts with a line break and each line keeps the
     * source's six-space indentation (the file's CRLF breaks read as "\n" inside a template).
     */
    function FullDescription(): string {
      "\n      As a " + title + " at " + companyName + ", you will work with a fast-paced engineering team.\n      You will be involved in real product development, collaborate with senior engineers, \n      and build scalable solutions used by real customers.\n\n      You will gain hands-on experience, mentorship, and exposure to industry practices.\n    "
    }
  }

  /** The monthly stipend of listing `index`, in rupees. */
  function SalaryAmount(index: nat): (a: nat)
    ensures BaseSalary <= a <= BaseSalary + 9 * SalaryStep
    ensures (a - BaseSalary) % SalaryStep == 0
  {
    BaseSalary + (index % 10) * SalaryStep
  }

  /** "₹<amount>/month". */
  function StipendText(amount: nat): string {
    "\U{20B9}" + NatToString(amount) + "/month"
  }

  /** `generateInternship(index)`: each table is read at `index` modulo its length. */
  function GenerateInternship(index: nat): MockInternship {
    var company := Companies[index % |Companies|];
    var role := Roles[index % |Roles|];
    MockInternship(
      NatToString(index + 1),
      role + " Intern",
      company,
      Locations[index % |Locations|],
      MockSource,
      MockApplyUrl,
      None,
      StipendText(SalaryAmount(index)),
      Qualifications[index % |Qualifications|],
      Degrees[index % |Degrees|],
      if index % 2 == 0 then ZeroToOneYear else Fresher,
      if index % 3 == 0 then "Yes" else "No",
      SkillsPool[..index % 5 + 2])
  }

  /** `Array.from({ length: 200 }, (_, i) => generateInternship(i))`. */
  function MockList(): (r: seq<MockInternship>)
    ensures |r| == MockCount
  {
    seq(MockCount, i requires 0 <= i < MockCount => GenerateInternship(i))
  }

  // ---- properties ----

  /** Listing ids are "1" to "200": distinct, so each names one listing. */
  lemma IdsDistinct(i: nat, j: nat)
    requires i < MockCount && j < MockCount
    ensures MockList()[i].id == MockList()[j].id <==> i == j
  {
    if MockList()[i].id == MockList()[j].id {
      NatToStringInjective(i + 1, j + 1);
    }
  }

  /** Listing `i` has id `String(i + 1)`: decimal digits whose value is `i + 1`. */
  lemma IdValue(i: nat)
    requires i < MockCount
    ensures IsDigits(MockList()[i].id) && DigitsValue(MockList()[i].id) == i + 1
  {
    DigitsValueOfNatToString(i + 1);
  }

  /** Company and location come from their tables and repeat every 18 and 7 listings. */
  lemma CompanyAndLocation(i: nat)
    requires i + 18 < MockCount
    ensures MockList()[i].companyName in Companies && MockList()[i].location in Locations
    ensures MockList()[i + 18].companyName == MockList()[i].companyName
    ensures MockList()[i + 7].location == MockList()[i].location
  {
    assert (i + 18) % 18 == i % 18;
    assert (i + 7) % 7 == i % 7;
  }

  /** The title is a role followed by " Intern", and repeats every 15 listings. */
  lemma TitleFromRole(i: nat)
    requires i + 15 < MockCount
    ensures exists role :: role in Roles && MockList()[i].title == role + " Intern"
    ensures MockList()[i + 15].title == MockList()[i].title
  {
    assert MockList()[i].title == Roles[i % |Roles|] + " Intern";
    assert MockList()[i + 15].title == Roles[(i + 15) % |Roles|] + " Intern";
    assert (i + 15) % 15 == i % 15;
    assert Roles[i % |Roles|] in Roles;
  }

  /** "₹<amount>/month" for one of the ten amounts 15000, 18000, …, 42000. */
  predicate StipendInRange(s: string) {
    exists k: nat :: k < 10 && s == StipendText(BaseSalary + k * SalaryStep)
  }

  /** The stipend is "₹<amount>/month" with the amount between 15000 and 42000 in steps of 3000. */
  lemma SalaryBounds(i: nat)
    requires i < MockCount
    ensures StipendInRange(MockList()[i].salary)
  {
    assert MockList()[i].salary == StipendText(SalaryAmount(i));
    StipendOfIndexInRange(i);
  }

  lemma StipendOfIndexInRange(i: nat)
    ensures StipendInRange(StipendText(SalaryAmount(i)))
  {
    var k := i % 10;
    assert SalaryAmount(i) == BaseSalary + k * SalaryStep;
  }

  /** Each listing asks for the first two to six skills of the pool. */
  lemma SkillsBounds(i: nat)
    requires i < MockCount
    ensures var s := MockList()[i].skills;
            2 <= |s| <= 6 && s == SkillsPool[..|s|]
  {
  }

  /** Even listings want "0–1 year", odd ones freshers. */
  lemma ExperienceRule(i: nat)
    requires i < MockCount
    ensures MockList()[i].experience == (if i % 2 == 0 then ZeroToOneYear else Fresher)
  {
  }

  /** Every third listing, starting with the first, allows a gap year. */
  lemma GapYearRule(i: nat)
    requires i < MockCount
    ensures MockList()[i].gapYearsAllowed == (if i % 3 == 0 then "Yes" else "No")
  {
  }

  /** Every listing points at the external placeholder "#" and has no internal id. */
  lemma ExternalOnly(i: nat)
    requires i < MockCount
    ensures MockList()[i].applyUrl == MockApplyUrl && MockList()[i].internalId.None?
  {
  }
}
