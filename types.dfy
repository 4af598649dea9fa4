/** Record shapes of a QA report's checklist and priority summary. */
module Types {

  /** One line of the checklist, ticked or not. */
  datatype ChecklistItem = ChecklistItem(id: string, text: string, checked: bool)

  /** Free-text notes about a section and the URLs of images uploaded for it. */
  datatype IssuesFound = IssuesFound(text: string, images: seq<string>)

  /** A section of the checklist; `completed` is a cached "every item is checked". */
  datatype ChecklistSection = ChecklistSection(
    sectionId: string,
    sectionTitle: string,
    items: seq<ChecklistItem>,
    issuesFound: IssuesFound,
    completed: bool)

  /** A named group of sections; the order of categories and sections is significant. */
  datatype ChecklistCategory = ChecklistCategory(category: string, sections: seq<ChecklistSection>)

  /** The four user-curated lists of issues, most urgent first. */
  datatype PrioritySummary = PrioritySummary(
    critical: seq<string>,
    high: seq<string>,
    medium: seq<string>,
    low: seq<string>)

  /** The overall rating of a report, best first. */
  datatype Rating = Excellent | Good | Fair | Poor

  /** Position of a rating from best (0) to worst (3). */
  function Rank(r: Rating): nat
  {
    match r
    case Excellent => 0
    case Good => 1
    case Fair => 2
    case Poor => 3
  }
}
