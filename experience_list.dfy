/** The work-experience list: CMS work-experience items turned into display
    records, with a built-in sample record shown when the CMS returns none.
    Dates are reduced to the years the component prints. */
module ExperienceList {
  import opened Text

  /** A date string from the CMS, with the year `getFullYear` reads from it. */
  datatype DateValue = DateValue(text: string, year: int)

  datatype TechName = TechName(name: string)

  /** One CMS item; `None` marks an absent (or `null`) field. */
  datatype WorkExperienceItem = WorkExperienceItem(
    employer: string,
    jobTitle: string,
    startDate: DateValue,
    endDate: Option<DateValue>,
    description: Option<string>,
    logo: Option<string>,
    techStack: Option<seq<TechName>>)

  /** The logo shown: CMS markup injected as HTML, or the built-in mark of the
      sample record. */
  datatype Logo = Markup(html: string) | SampleMark

  /** A display record; `technologies == None` is the `undefined` the source
      produces when the item has no tech stack. */
  datatype Experience = Experience(
    company: string,
    logo: Logo,
    title: string,
    period: string,
    description: string,
    technologies: Option<seq<string>>)

  /** The loader data, down to the item list: each level may be missing. */
  datatype WorkExperienceBlock = WorkExperienceBlock(items: Option<seq<WorkExperienceItem>>)
  datatype LoaderData = LoaderData(workExperience: Option<WorkExperienceBlock>)

  const NoDescription: string := "No description available."

  /** `data?.workExperience?.items || []`. */
  function ApiItems(data: Option<LoaderData>): (items: seq<WorkExperienceItem>)
    ensures data.None? || data.value.workExperience.None? || data.value.workExperience.value.items.None? ==> items == []
    ensures data.Some? && data.value.workExperience.Some? && data.value.workExperience.value.items.Some? ==>
              items == data.value.workExperience.value.items.value
  {
    if data.Some? && data.value.workExperience.Some? && data.value.workExperience.value.items.Some?
    then data.value.workExperience.value.items.value
    else []
  }

  /** `endYear`: an absent or empty end date reads as "Present". */
  function EndLabel(endDate: Option<DateValue>): (endText: string)
    ensures endDate.None? || endDate.value.text == "" ==> endText == "Present"
    ensures endDate.Some? && endDate.value.text != "" ==> ParseInt(endText) == Some(endDate.value.year)
  {
    if endDate.Some? && endDate.value.text != "" then
      ParseIntToString(endDate.value.year);
      IntToString(endDate.value.year)
    else "Present"
  }

  /** `${startYear} - ${endYear}`. */
  function Period(item: WorkExperienceItem): (period: string)
    ensures ReadPeriod(period) == Some((item.startDate.year, EndYear(item.endDate)))
  {
    PeriodRoundTrip(item.startDate.year, item.endDate);
    IntToString(item.startDate.year) + " - " + EndLabel(item.endDate)
  }

  /** Reads a period back into its start year and its end (None for "Present"). */
  function ReadPeriod(period: string): Option<(int, Option<int>)>
  {
    var parts := SplitOn(period, ' ');
    if |parts| != 3 || parts[1] != "-" then None
    else
      match ParseInt(parts[0])
      case None => None
      case Some(start) =>
        if parts[2] == "Present" then Some((start, None))
        else
          match ParseInt(parts[2])
          case None => None
          case Some(last) => Some((start, Some(last)))
  }

  /** The end year a period should show: None while the job is current. */
  function EndYear(endDate: Option<DateValue>): Option<int>
  {
    if endDate.Some? && endDate.value.text != "" then Some(endDate.value.year) else None
  }

  /** The period shows the start year and the end year, or "Present" when the
      item has no end date. */
  /** Splitting `start - end` on spaces gives its three parts when neither
      side contains a space. */
  lemma SplitPeriod(start: string, endText: string)
    requires ' ' !in start && ' ' !in endText
    ensures SplitOn(start + " - " + endText, ' ') == [start, "-", endText]
  {
    assert " - " == [' '] + "-" + [' '];
    assert start + " - " + endText == start + [' '] + ("-" + [' '] + endText);
    SplitOnPiece(endText, ' ');
    SplitOnJoin("-", endText, ' ');
    SplitOnJoin(start, "-" + [' '] + endText, ' ');
  }

  lemma PeriodRoundTrip(startYear: int, endDate: Option<DateValue>)
    ensures ReadPeriod(IntToString(startYear) + " - " + EndLabel(endDate)) == Some((startYear, EndYear(endDate)))
  {
    var start, endText := IntToString(startYear), EndLabel(endDate);
    IntToStringAvoids(startYear, ' ');
    if endDate.Some? && endDate.value.text != "" {
      IntToStringAvoids(endDate.value.year, ' ');
      ParseIntToString(endDate.value.year);
    }
    SplitPeriod(start, endText);
    ParseIntToString(startYear);
  }

  /** `item.techStack?.map(tech => tech.name)`. */
  function TechNames(stack: Option<seq<TechName>>): (names: Option<seq<string>>)
    ensures names.None? <==> stack.None?
    ensures names.Some? ==> |names.value| == |stack.value|
    ensures names.Some? ==> forall k :: 0 <= k < |names.value| ==> names.value[k] == stack.value[k].name
  {
    if stack.None? then None else Some(seq(|stack.value|, k requires 0 <= k < |stack.value| => stack.value[k].name))
  }

  /** `item.description || "No description available."`. */
  function Description(description: Option<string>): (d: string)
    ensures d != ""
    ensures description.Some? && description.value != "" ==> d == description.value
    ensures description.None? || description.value == "" ==> d == NoDescription
  {
    if description.Some? && description.value != "" then description.value else NoDescription
  }

  /** The `map` callback. */
  function ToExperience(item: WorkExperienceItem): (e: Experience)
    ensures e.company == item.employer && e.title == item.jobTitle
    ensures e.logo == Markup(GetLogo(item.logo))
    ensures ReadPeriod(e.period) == Some((item.startDate.year, EndYear(item.endDate)))
    ensures e.description == Description(item.description) && e.description != ""
    ensures e.technologies == TechNames(item.techStack)
  {
    Experience(item.employer, Markup(GetLogo(item.logo)), item.jobTitle, Period(item),
               Description(item.description), TechNames(item.techStack))
  }

  /** `item.logo ?? ""`. */
  function GetLogo(logo: Option<string>): (html: string)
    ensures logo.None? ==> html == ""
    ensures logo.Some? ==> html == logo.value
  {
    if logo.Some? then logo.value else ""
  }

  /** `apiExperiences.map(...)`, one record per item. */
  function Transform(items: seq<WorkExperienceItem>): (exps: seq<Experience>)
    ensures |exps| == |items|
    ensures forall k :: 0 <= k < |items| ==> exps[k] == ToExperience(items[k])
  {
    if items == [] then [] else [ToExperience(items[0])] + Transform(items[1..])
  }

  /** Order is kept: transforming a concatenation concatenates the results. */
  lemma TransformAppend(xs: seq<WorkExperienceItem>, ys: seq<WorkExperienceItem>)
    ensures Transform(xs + ys) == Transform(xs) + Transform(ys)
  {
  }

  /** The built-in sample record. */
  const FallbackExperiences: seq<Experience> := [
    Experience(
      "Klipfolio",
      SampleMark,
      "Senior Full-Stack Developer",
      "2020 - Present",
      "Leading development on core product features, implementing modern React patterns and optimizing performance.",
      Some(["React", "TypeScript", "Node.js"]))
  ]

  /** The sample record is a current job started in 2020, in the same period
      format the transformation produces. */
  lemma FallbackPeriod()
    ensures |FallbackExperiences| == 1
    ensures ReadPeriod(FallbackExperiences[0].period) == Some((2020, None))
  {
    assert NatToString(2) == "2";
    assert NatToString(20) == "20";
    assert NatToString(202) == "202";
    assert NatToString(2020) == "2020";
    assert "2020 - Present" == IntToString(2020) + " - " + EndLabel(None);
    PeriodRoundTrip(2020, None);
  }

  /** `experiences.length > 0 ? experiences : fallbackExperiences`. */
  function DisplayExperiences(data: Option<LoaderData>): (shown: seq<Experience>)
    ensures |shown| > 0
    ensures shown == FallbackExperiences <==> ApiItems(data) == []
    ensures ApiItems(data) != [] ==> shown == Transform(ApiItems(data))
  {
    var experiences := Transform(ApiItems(data));
    if |experiences| > 0 then experiences else FallbackExperiences
  }
}
