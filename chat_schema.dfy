/** The question categories of the chat endpoint: the classifier answers
    with one of them, and each selects a prompt template. */
module ChatSchema {
  import opened Common

  datatype Category = Trivia | Resume | Coding | SystemDesign | Clarify

  /** The enum's string values. */
  function CategoryName(c: Category): string {
    match c
    case Trivia => "trivia"
    case Resume => "resume"
    case Coding => "coding"
    case SystemDesign => "system_design"
    case Clarify => "clarify"
  }

  /** The category whose value is `text`, if any. */
  function ParseCategory(text: string): (r: Option<Category>)
    ensures r.Some? ==> CategoryName(r.value) == text
  {
    if text == "trivia" then Some(Trivia)
    else if text == "resume" then Some(Resume)
    else if text == "coding" then Some(Coding)
    else if text == "system_design" then Some(SystemDesign)
    else if text == "clarify" then Some(Clarify)
    else None
  }

  /** Parsing and naming are inverse: a text parses exactly when it is the
      value of a category, and then to that category. */
  lemma CategoryRoundTrip(c: Category, text: string)
    ensures ParseCategory(CategoryName(c)) == Some(c)
    ensures ParseCategory(text).None? <==> forall k: Category :: CategoryName(k) != text
  {
    if ParseCategory(text).None? {
      forall k: Category ensures CategoryName(k) != text {
        match k
        case Trivia =>
        case Resume =>
        case Coding =>
        case SystemDesign =>
        case Clarify =>
      }
    } else {
      assert CategoryName(ParseCategory(text).value) == text;
    }
  }
}
