/** The shapes of src/types/index.ts that the grids, the search and the recommendations
    read. The catalogue lists themselves come from a sample-data module that is not part of
    this model, so every operation over them takes the list as a parameter. Category, level,
    type and style are kept as the strings the code compares. */
module LearnTypes {
  import opened Wrappers

  datatype LearningPath = LearningPath(
    id: string,
    title: string,
    description: string,
    category: string,
    difficulty: string,
    estimatedHours: int,
    skills: seq<string>,
    progress: int,          // percent, 0..100
    tags: seq<string>,
    enrolled: bool)

  datatype Resource = Resource(
    id: string,
    title: string,
    description: string,
    url: string,
    kind: string,           // the `type` field: youtube, mdn, article, documentation, github
    difficulty: string,
    duration: Option<int>,  // minutes
    tags: seq<string>,
    author: Option<string>)

  datatype UserPreferences = UserPreferences(
    preferredTopics: seq<string>,
    learningStyle: string,
    difficultyLevel: string,
    timeAvailability: int,  // hours per week
    notifications: bool,
    darkMode: bool)
}
