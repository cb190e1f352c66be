/**
 * The records of src/types/index.ts, plus the small records App.tsx builds
 * before handing them to the backend (`Omit<Pet, 'id' | 'created_at'>`,
 * `Omit<ChatMessage, 'id' | 'created_at'>`) and its local `ChatHistory` entry.
 * Optional TypeScript fields (`breed?`, `reasoning?`, `user_id?`) are `Option`s.
 */
module Types {
  import opened Wrappers

  datatype Pet = Pet(
    id: string,
    name: string,
    petType: string,            // `type` in the source, a Dafny keyword
    breed: Option<string>,
    description: string,
    personality: string,        // JSON text of {characteristics, care_tips}
    image_url: string,
    user_id: Option<string>,
    created_at: string)

  datatype ChatMessage = ChatMessage(
    id: string,
    pet_id: string,
    user_id: Option<string>,
    message: string,
    is_from_pet: bool,
    reasoning: Option<string>,
    created_at: string)

  /** What the vision model is asked to return for a photographed pet. */
  datatype GeminiResponse = GeminiResponse(
    petType: string,
    breed: Option<string>,
    description: string,
    characteristics: seq<string>,
    care_tips: seq<string>)

  datatype DayPlan = DayPlan(breakfast: string, lunch: string, dinner: string, treats: string, notes: string)

  datatype PlanData = PlanData(
    weekly_plan: map<string, DayPlan>,
    nutritional_guidelines: seq<string>,
    feeding_schedule: string,
    portion_sizes: string,
    special_considerations: seq<string>)

  datatype DietPlan = DietPlan(
    id: string,
    pet_id: string,
    user_id: Option<string>,
    plan_data: PlanData,
    created_at: string)

  /** An in-character reply and the explanation shown under "Why ... said this". */
  datatype AIResponse = AIResponse(response: string, reasoning: string)

  datatype PetMoodScenario = PetMoodScenario(
    scenario: string,
    correct_mood: string,
    mood_options: seq<string>,
    explanation: string)

  /** The `role` strings 'system', 'user' and 'assistant' of a chat-completion message. */
  datatype Role = System | User | Assistant

  /** App.tsx's `ChatHistory` entry: one turn of the conversation fed back to the text model. */
  datatype HistoryEntry = HistoryEntry(role: Role, content: string)

  /** The authenticated account; only its identity matters to the model. */
  datatype Account = Account(id: string)

  /** A picked image file; only its name is kept. */
  datatype ImageFile = ImageFile(name: string)

  /** The pet record App.tsx asks the backend to insert; `personality` is kept structured. */
  datatype NewPet = NewPet(
    name: string,
    petType: string,
    breed: Option<string>,
    description: string,
    characteristics: seq<string>,
    care_tips: seq<string>,
    image_url: string)

  /** The chat-message record App.tsx asks the backend to insert. */
  datatype NewChatMessage = NewChatMessage(
    pet_id: string,
    message: string,
    is_from_pet: bool,
    reasoning: Option<string>)
}
