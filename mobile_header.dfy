/** The header title of components/layout/MobileHeader.tsx (getTitle). */
module MobileHeader {

  const KnownRoutes: set<string> := {"dashboard", "goals", "courses", "partners", "more"}

  const DefaultTitle: string := "Accountable"

  function Title(activeRoute: string): (title: string)
    ensures title != ""
    ensures title == DefaultTitle <==> activeRoute !in KnownRoutes
  {
    match activeRoute
    case "dashboard" => "Dashboard"
    case "goals" => "Goals"
    case "courses" => "Courses"
    case "partners" => "Partners"
    case "more" => "More"
    case _ => DefaultTitle
  }

  function UpperAscii(c: char): (u: char)
    ensures 'a' <= c <= 'z' ==> 'A' <= u <= 'Z'
    ensures !('a' <= c <= 'z') ==> u == c
  {
    if 'a' <= c <= 'z' then (c as int - 'a' as int + 'A' as int) as char else c
  }

  /** A route name with its first letter in upper case. */
  function Capitalized(name: string): (s: string)
    ensures |s| == |name|
    ensures name != "" ==> s[0] == UpperAscii(name[0]) && s[1..] == name[1..]
  {
    if name == "" then "" else [UpperAscii(name[0])] + name[1..]
  }

  /** Every known route is titled by its own name, capitalised. */
  lemma KnownTitlesAreCapitalizedNames(activeRoute: string)
    requires activeRoute in KnownRoutes
    ensures Title(activeRoute) == Capitalized(activeRoute)
  {
  }

  /** The five known routes have five different titles. */
  lemma KnownTitlesDistinct(r1: string, r2: string)
    requires r1 in KnownRoutes && r2 in KnownRoutes && r1 != r2
    ensures Title(r1) != Title(r2)
  {
  }
}
