/** The wizard's questions for each use case (constants.ts). */
module Constants {
  import opened Types

  // The answer options, one list per question, in display order.
  const GAMING_OPTIONS_1: seq<string> := ["Under ₹60,000", "₹60,000 - ₹1,00,000", "₹1,00,000 - ₹1,50,000", "Above ₹1,50,000"]
  const GAMING_OPTIONS_2: seq<string> := ["Esports titles (e.g., Valorant, CS:GO)", "AAA single-player games (e.g., Cyberpunk 2077)", "A mix of everything", "Indie and less demanding games"]
  const GAMING_OPTIONS_3: seq<string> := ["High frame rates (144+ FPS)", "Maximum graphics quality (4K, Ray Tracing)", "A balance between performance and quality", "Just a smooth experience at 1080p"]
  const GAMING_OPTIONS_4: seq<string> := ["Yes, frequently", "Occasionally", "No, just gaming", "Not sure yet"]
  const STUDENT_OPTIONS_1: seq<string> := ["Under ₹40,000", "₹40,000 - ₹70,000", "₹70,000 - ₹1,00,000", "Above ₹1,00,000"]
  const STUDENT_OPTIONS_2: seq<string> := ["General studies (arts, commerce, etc.)", "Engineering or Computer Science", "Design, Video Editing, or Architecture", "Research or data-heavy fields"]
  const STUDENT_OPTIONS_3: seq<string> := ["Very important, I need a lightweight laptop", "Somewhat important, but I value performance too", "Not important, a desktop PC is fine", "I prefer a desktop for more power"]
  const STUDENT_OPTIONS_4: seq<string> := ["Light gaming", "Watching movies and media", "Coding and projects", "None, just for studies"]
  const GENERAL_OPTIONS_1: seq<string> := ["Under ₹35,000", "₹35,000 - ₹55,000", "₹55,000 - ₹80,000", "Above ₹80,000"]
  const GENERAL_OPTIONS_2: seq<string> := ["Web browsing, email, and office work", "Media consumption (Netflix, YouTube)", "Home office and light multitasking", "Family use with some casual gaming"]
  const GENERAL_OPTIONS_3: seq<string> := ["Laptop for portability", "Desktop PC for upgradability", "All-in-One for a clean setup", "Mini PC for saving space"]
  const GENERAL_OPTIONS_4: seq<string> := ["A large, high-quality display", "Fast performance and responsiveness", "Long battery life (for laptops)", "Plenty of storage space"]

  const BUDGET_QUESTION := "What is your approximate budget?"

  const GAMING_QUESTIONS: seq<Question> := [
    Question(BUDGET_QUESTION, GAMING_OPTIONS_1),
    Question("What kind of games do you primarily play?", GAMING_OPTIONS_2),
    Question("What is more important to you?", GAMING_OPTIONS_3),
    Question("Do you also plan to stream or create content?", GAMING_OPTIONS_4)
  ]

  const STUDENT_QUESTIONS: seq<Question> := [
    Question(BUDGET_QUESTION, STUDENT_OPTIONS_1),
    Question("What is your primary field of study?", STUDENT_OPTIONS_2),
    Question("How important is portability for you?", STUDENT_OPTIONS_3),
    Question("Do you have any secondary uses in mind?", STUDENT_OPTIONS_4)
  ]

  const GENERAL_QUESTIONS: seq<Question> := [
    Question(BUDGET_QUESTION, GENERAL_OPTIONS_1),
    Question("What is the main purpose of this computer?", GENERAL_OPTIONS_2),
    Question("What form factor do you prefer?", GENERAL_OPTIONS_3),
    Question("Is there anything specific you value most?", GENERAL_OPTIONS_4)
  ]

  /**
   * `QUESTIONS[useCase]`: four questions per use case, each with four options,
   * always opening with the budget question.
   */
  function Questions(useCase: UseCase): (qs: seq<Question>)
    ensures |qs| == 4
    ensures forall i :: 0 <= i < |qs| ==> |qs[i].options| == 4
    ensures qs[0].question == BUDGET_QUESTION
  {
    match useCase
    case Gaming => GAMING_QUESTIONS
    case Student => STUDENT_QUESTIONS
    case General => GENERAL_QUESTIONS
  }
}
