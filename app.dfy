/**
 * src/App.tsx: the screen/session state machine. `AppSession` holds the
 * component's state slots; each handler is a method. Results of the backend
 * and of the AI services are parameters; what the handler hands to the
 * backend comes back as an out-parameter.
 */
module App {
  import opened Wrappers
  import opened Types
  import opened Json
  import OpenAI

  /** `AppStep`. */
  datatype AppStep = Auth | Dashboard | Upload | Identify | Register | Chat | Diet | PawMood

  /** The outcome of a backend call that the handler wraps in `try`/`catch`. */
  datatype Fetch<T> = Fetched(value: T) | Threw

  /** The screen `loadUserPets` moves to once the pet fetch has settled. */
  function StepAfterPetFetch(fetched: Fetch<seq<Pet>>): (step: AppStep)
    ensures step == Dashboard <==> fetched.Fetched? && |fetched.value| > 0
    ensures step == Upload <==> fetched.Threw? || fetched.value == []
  {
    match fetched
    case Threw => Upload
    case Fetched(pets) => if |pets| > 0 then Dashboard else Upload
  }

  /** One message as a history entry: the pet speaks as `assistant`, the human as `user`. */
  function HistoryEntryOf(m: ChatMessage): (e: HistoryEntry)
    ensures e.role == Assistant <==> m.is_from_pet
    ensures e.role != System && e.content == m.message
  {
    HistoryEntry(if m.is_from_pet then Assistant else User, m.message)
  }

  /** `messages.map(...)` in `loadChatMessages`: same length, same order, one entry per message. */
  function ChatHistoryOf(messages: seq<ChatMessage>): (history: seq<HistoryEntry>)
    ensures |history| == |messages|
    ensures forall i :: 0 <= i < |messages| ==>
      (history[i].role == Assistant <==> messages[i].is_from_pet) &&
      history[i].role != System && history[i].content == messages[i].message
  {
    seq(|messages|, i requires 0 <= i < |messages| => HistoryEntryOf(messages[i]))
  }

  /** The history of a longer conversation extends the history of the shorter one. */
  lemma ChatHistoryAppend(messages: seq<ChatMessage>, m: ChatMessage)
    ensures ChatHistoryOf(messages + [m]) == ChatHistoryOf(messages) + [HistoryEntryOf(m)]
  {
    var lhs, rhs := ChatHistoryOf(messages + [m]), ChatHistoryOf(messages) + [HistoryEntryOf(m)];
    forall i | 0 <= i < |lhs| ensures lhs[i] == rhs[i] {
      if i < |messages| {
        assert (messages + [m])[i] == messages[i];
      }
    }
  }

  /** A stored message that carries the fields it was saved with. */
  predicate Echoes(stored: ChatMessage, request: NewChatMessage) {
    && stored.pet_id == request.pet_id
    && stored.message == request.message
    && stored.is_from_pet == request.is_from_pet
    && stored.reasoning == request.reasoning
  }

  /** The image URL stored with a new pet: the uploaded URL when there was a file and a truthy upload result, else the local one. */
  function StoredImageUrl(captured: string, file: Option<ImageFile>, uploaded: Option<string>): (url: string)
    ensures url == captured || (file.Some? && uploaded == Some(url) && url != "")
    ensures file.Some? && uploaded.Some? && uploaded.value != "" ==> url == uploaded.value
    ensures file.None? || uploaded.None? || uploaded == Some("") ==> url == captured
  {
    if file.Some? && uploaded.Some? && uploaded.value != "" then uploaded.value else captured
  }

  /** The record handed to `savePet`: the chosen name and the identification, personality kept structured. */
  function NewPetFrom(name: string, info: GeminiResponse, imageUrl: string): (p: NewPet)
    ensures p.name == name && p.image_url == imageUrl
    ensures p.petType == info.petType && p.breed == info.breed && p.description == info.description
    ensures p.characteristics == info.characteristics && p.care_tips == info.care_tips
  {
    NewPet(name, info.petType, info.breed, info.description, info.characteristics, info.care_tips, imageUrl)
  }

  /** The value of every state slot of the component. */
  datatype Snapshot = Snapshot(
    currentStep: AppStep,
    user: Option<Account>,
    isLoading: bool,
    authLoading: bool,
    capturedImage: string,
    imageFile: Option<ImageFile>,
    petInfo: Option<GeminiResponse>,
    pets: seq<Pet>,
    currentPet: Option<Pet>,
    chatMessages: seq<ChatMessage>,
    chatHistory: seq<HistoryEntry>,
    currentDietPlan: Option<DietPlan>)

  /** What the component renders for a state (`authLoading` first, then `renderCurrentStep`). */
  datatype Screen =
    | LoadingScreen
    | AuthScreen
    | DashboardScreen(pets: seq<Pet>)
    | UploadScreen(canGoBack: bool)
    | IdentificationScreen(info: GeminiResponse, imageUrl: string)
    | RegistrationScreen(info: GeminiResponse, imageUrl: string)
    | ChatScreen(pet: Pet, messages: seq<ChatMessage>)
    | DietScreen(pet: Pet)
    | PawMoodScreen(pet: Pet)
    | Nothing

  function Render(s: Snapshot): (screen: Screen)
    ensures screen == LoadingScreen <==> s.authLoading
    ensures screen == Nothing <==>
      !s.authLoading &&
      ((s.currentStep in {Identify, Register} && s.petInfo.None?) ||
       (s.currentStep in {Chat, Diet, PawMood} && s.currentPet.None?))
    ensures screen.UploadScreen? ==> (screen.canGoBack <==> |s.pets| > 0)
    ensures screen.IdentificationScreen? || screen.RegistrationScreen? ==>
      s.petInfo == Some(screen.info) && screen.imageUrl == s.capturedImage
    ensures screen.ChatScreen? ==> s.currentPet == Some(screen.pet) && screen.messages == s.chatMessages
    ensures screen.DietScreen? || screen.PawMoodScreen? ==> s.currentPet == Some(screen.pet)
    ensures !s.authLoading && s.currentStep == Auth ==> screen == AuthScreen
    ensures !s.authLoading && s.currentStep == Dashboard ==> screen == DashboardScreen(s.pets)
    ensures !s.authLoading && s.currentStep == Upload ==> screen == UploadScreen(|s.pets| > 0)
    ensures !s.authLoading && s.currentStep == Identify && s.petInfo.Some? ==>
      screen == IdentificationScreen(s.petInfo.value, s.capturedImage)
    ensures !s.authLoading && s.currentStep == Register && s.petInfo.Some? ==>
      screen == RegistrationScreen(s.petInfo.value, s.capturedImage)
    ensures !s.authLoading && s.currentStep == Chat && s.currentPet.Some? ==>
      screen == ChatScreen(s.currentPet.value, s.chatMessages)
    ensures !s.authLoading && s.currentStep == Diet && s.currentPet.Some? ==> screen == DietScreen(s.currentPet.value)
    ensures !s.authLoading && s.currentStep == PawMood && s.currentPet.Some? ==> screen == PawMoodScreen(s.currentPet.value)
  {
    if s.authLoading then LoadingScreen
    else match s.currentStep
      case Auth => AuthScreen
      case Dashboard => DashboardScreen(s.pets)
      case Upload => UploadScreen(|s.pets| > 0)
      case Identify => if s.petInfo.Some? then IdentificationScreen(s.petInfo.value, s.capturedImage) else Nothing
      case Register => if s.petInfo.Some? then RegistrationScreen(s.petInfo.value, s.capturedImage) else Nothing
      case Chat => if s.currentPet.Some? then ChatScreen(s.currentPet.value, s.chatMessages) else Nothing
      case Diet => if s.currentPet.Some? then DietScreen(s.currentPet.value) else Nothing
      case PawMood => if s.currentPet.Some? then PawMoodScreen(s.currentPet.value) else Nothing
  }

  /**
   * The text of the loading overlay drawn while `isLoading` over the framed
   * screens (upload, identify, register); the full-page loading screen for
   * `authLoading` replaces everything, the overlay included.
   */
  function LoadingOverlay(s: Snapshot): (text: Option<string>)
    ensures text.Some? <==> !s.authLoading && s.isLoading && s.currentStep in {Upload, Identify, Register}
    ensures text.Some? ==> Render(s) != LoadingScreen
    ensures text.Some? ==>
      Render(s).UploadScreen? || Render(s).IdentificationScreen? || Render(s).RegistrationScreen? || Render(s) == Nothing
    ensures text.Some? ==>
      text.value == if s.currentStep == Upload then "Identifying your pet..." else "Saving your pet..."
  {
    if !s.authLoading && s.isLoading && s.currentStep in {Upload, Identify, Register} then
      Some(if s.currentStep == Upload then "Identifying your pet..." else "Saving your pet...")
    else None
  }

  const UnidentifiedAlert := "Unable to identify the pet. Please try again with a clearer image."

  class AppSession {
    var currentStep: AppStep
    var user: Option<Account>
    var isLoading: bool
    var authLoading: bool
    var capturedImage: string
    var imageFile: Option<ImageFile>
    var petInfo: Option<GeminiResponse>
    var pets: seq<Pet>
    var currentPet: Option<Pet>
    var chatMessages: seq<ChatMessage>
    var chatHistory: seq<HistoryEntry>
    var currentDietPlan: Option<DietPlan>

    function Snap(): Snapshot
      reads this
    {
      Snapshot(currentStep, user, isLoading, authLoading, capturedImage, imageFile, petInfo,
               pets, currentPet, chatMessages, chatHistory, currentDietPlan)
    }

    /** Every message has its history entry: both lists are loaded together and grow together. */
    ghost predicate Valid()
      reads this
    {
      |chatHistory| == |chatMessages|
    }

    /** The history is exactly the one derived from the messages. */
    ghost predicate HistoryInSync()
      reads this
    {
      chatHistory == ChatHistoryOf(chatMessages)
    }

    /** The initial `useState` values. */
    constructor ()
      ensures Valid() && HistoryInSync()
      ensures Snap() == Snapshot(Auth, None, false, true, "", None, None, [], None, [], [], None)
    {
      currentStep, user, isLoading, authLoading := Auth, None, false, true;
      capturedImage, imageFile, petInfo := "", None, None;
      pets, currentPet := [], None;
      chatMessages, chatHistory, currentDietPlan := [], [], None;
    }

    /** `loadUserPets`: store the fetched list and pick dashboard or upload; a throw goes to upload. */
    method LoadUserPets(fetched: Fetch<seq<Pet>>)
      modifies this
      ensures Snap() == old(Snap()).(
        pets := if fetched.Fetched? then fetched.value else old(pets),
        currentStep := StepAfterPetFetch(fetched))
    {
      match fetched {
        case Fetched(fetchedPets) =>
          pets := fetchedPets;
          if |fetchedPets| > 0 {
            currentStep := Dashboard;
          } else {
            currentStep := Upload;
          }
        case Threw =>
          currentStep := Upload;
      }
    }

    /** `checkAuthState`: with a current user, remember it and load the pets. */
    method CheckAuthState(currentUser: Option<Account>, fetched: Fetch<seq<Pet>>)
      requires Valid()
      modifies this
      ensures Valid() && (old(HistoryInSync()) ==> HistoryInSync())
      ensures currentUser.None? ==> Snap() == old(Snap()).(authLoading := false)
      ensures currentUser.Some? ==> Snap() == old(Snap()).(
        user := currentUser, authLoading := false,
        pets := if fetched.Fetched? then fetched.value else old(pets),
        currentStep := StepAfterPetFetch(fetched))
    {
      if currentUser.Some? {
        user := currentUser;
        LoadUserPets(fetched);
      }
      authLoading := false;
    }

    /**
     * The auth-state listener: a session user is remembered and its pets
     * loaded; no session resets user, pets, selected pet and screen.
     */
    method OnAuthStateChange(sessionUser: Option<Account>, fetched: Fetch<seq<Pet>>)
      requires Valid()
      modifies this
      ensures Valid() && (old(HistoryInSync()) ==> HistoryInSync())
      ensures sessionUser.None? ==> Snap() == old(Snap()).(
        user := None, pets := [], currentPet := None, currentStep := Auth, authLoading := false)
      ensures sessionUser.Some? ==> Snap() == old(Snap()).(
        user := sessionUser, authLoading := false,
        pets := if fetched.Fetched? then fetched.value else old(pets),
        currentStep := StepAfterPetFetch(fetched))
    {
      if sessionUser.Some? {
        user := sessionUser;
        LoadUserPets(fetched);
      } else {
        user := None;
        pets := [];
        currentPet := None;
        currentStep := Auth;
      }
      authLoading := false;
    }

    /** `handleSignIn` / `handleSignUp`: the user arrives through the listener; a rejected request clears the spinner. */
    method BeginAuthRequest(succeeded: bool) returns (rethrown: bool)
      modifies this
      ensures rethrown == !succeeded
      ensures Snap() == old(Snap()).(authLoading := succeeded)
    {
      authLoading := true;
      rethrown := false;
      if !succeeded {
        authLoading := false;
        rethrown := true;
      }
    }

    method HandleSignIn(succeeded: bool) returns (rethrown: bool)
      modifies this
      ensures rethrown == !succeeded
      ensures Snap() == old(Snap()).(authLoading := succeeded)
    {
      rethrown := BeginAuthRequest(succeeded);
    }

    method HandleSignUp(succeeded: bool) returns (rethrown: bool)
      modifies this
      ensures rethrown == !succeeded
      ensures Snap() == old(Snap()).(authLoading := succeeded)
    {
      rethrown := BeginAuthRequest(succeeded);
    }

    /** `loadChatMessages`: the fetched messages and the history derived from them. */
    method LoadChatMessages(fetched: seq<ChatMessage>)
      modifies this
      ensures Valid() && HistoryInSync()
      ensures Snap() == old(Snap()).(chatMessages := fetched, chatHistory := ChatHistoryOf(fetched))
    {
      chatMessages := fetched;
      var history := ChatHistoryOf(fetched);
      chatHistory := history;
    }

    /** `loadDietPlan`: a thrown fetch keeps the plan that was loaded before. */
    method LoadDietPlan(fetched: Fetch<Option<DietPlan>>)
      modifies this
      ensures Snap() == old(Snap()).(
        currentDietPlan := if fetched.Fetched? then fetched.value else old(currentDietPlan))
    {
      if fetched.Fetched? {
        currentDietPlan := fetched.value;
      }
    }

    /** `handleSelectPet`: select the pet, load its conversation and plan, open the chat. */
    method HandleSelectPet(pet: Pet, messages: seq<ChatMessage>, plan: Fetch<Option<DietPlan>>)
      modifies this
      ensures Valid() && HistoryInSync()
      ensures Snap() == old(Snap()).(
        currentPet := Some(pet),
        chatMessages := messages, chatHistory := ChatHistoryOf(messages),
        currentDietPlan := if plan.Fetched? then plan.value else old(currentDietPlan),
        currentStep := Chat)
    {
      currentPet := Some(pet);
      LoadChatMessages(messages);
      LoadDietPlan(plan);
      currentStep := Chat;
    }

    method HandleAddNewPet()
      modifies this
      ensures Snap() == old(Snap()).(currentStep := Upload)
    {
      currentStep := Upload;
    }

    /**
     * `handleImageCapture`: keep the photo; a successful identification moves
     * to the identify screen, a `null` one alerts and leaves the screen as it is.
     */
    method HandleImageCapture(localUrl: string, file: ImageFile, identified: Option<GeminiResponse>)
      returns (alert: Option<string>)
      requires Valid()
      modifies this
      ensures Valid() && (old(HistoryInSync()) ==> HistoryInSync())
      ensures identified.Some? ==> alert.None? && Snap() == old(Snap()).(
        capturedImage := localUrl, imageFile := Some(file), isLoading := false,
        petInfo := identified, currentStep := Identify)
      ensures identified.None? ==>
        alert == Some(UnidentifiedAlert) &&
        Snap() == old(Snap()).(capturedImage := localUrl, imageFile := Some(file), isLoading := false)
    {
      isLoading, capturedImage, imageFile := true, localUrl, Some(file);
      alert := None;
      if identified.Some? {
        petInfo := identified;
        currentStep := Identify;
      } else {
        alert := Some(UnidentifiedAlert);
      }
      isLoading := false;
    }

    method HandleContinueToRegistration()
      modifies this
      ensures Snap() == old(Snap()).(currentStep := Register)
    {
      currentStep := Register;
    }

    /** The success path of `handleSavePet`: list and select the pet, load its messages, go to the dashboard, clear the pending photo. */
    method AdoptSavedPet(saved: Pet, messages: seq<ChatMessage>)
      modifies this
      ensures Valid() && HistoryInSync()
      ensures Snap() == old(Snap()).(
        pets := [saved] + old(pets),
        currentPet := Some(saved),
        chatMessages := messages, chatHistory := ChatHistoryOf(messages),
        currentStep := Dashboard,
        capturedImage := "", imageFile := None, petInfo := None)
    {
      pets := [saved] + pets;
      currentPet := Some(saved);
      LoadChatMessages(messages);
      currentStep := Dashboard;
      capturedImage := "";
      imageFile := None;
      petInfo := None;
    }

    /**
     * `handleSavePet`. Without a pending identification and photo nothing
     * happens. Otherwise the photo is uploaded (a failed upload keeps the
     * local URL) and the pet saved; a `null` save stays on the form. A saved
     * pet goes to the front of the list and is selected, its greeting is
     * generated and saved (whatever that returns), its messages are loaded, the dashboard
     * is shown and the pending photo and identification are cleared.
     */
    method HandleSavePet(name: string, uploadedUrl: Option<string>, savedPet: Option<Pet>,
                         aiKey: bool, personaReply: Reply, messages: seq<ChatMessage>)
      returns (petRequest: Option<NewPet>, greetingRequest: Option<NewChatMessage>)
      requires Valid()
      modifies this
      ensures Valid() && (old(HistoryInSync()) ==> HistoryInSync())
      ensures old(petInfo).None? || old(capturedImage) == "" ==>
        Snap() == old(Snap()) && petRequest.None? && greetingRequest.None?
      ensures old(petInfo).Some? && old(capturedImage) != "" ==>
        petRequest == Some(NewPetFrom(name, old(petInfo).value,
                                      StoredImageUrl(old(capturedImage), old(imageFile), uploadedUrl)))
      ensures greetingRequest.Some? ==> greetingRequest.value.message != "" && greetingRequest.value.is_from_pet
      ensures old(petInfo).Some? && old(capturedImage) != "" && savedPet.None? ==>
        greetingRequest.None? && Snap() == old(Snap()).(isLoading := false)
      ensures old(petInfo).Some? && old(capturedImage) != "" && savedPet.Some? ==>
        greetingRequest == Some(NewChatMessage(savedPet.value.id, OpenAI.CreatePetPersona(aiKey, personaReply), true, None)) &&
        Snap() == old(Snap()).(
          isLoading := false,
          pets := [savedPet.value] + old(pets),
          currentPet := savedPet,
          chatMessages := messages, chatHistory := ChatHistoryOf(messages),
          currentStep := Dashboard,
          capturedImage := "", imageFile := None, petInfo := None)
    {
      petRequest, greetingRequest := None, None;
      if petInfo.None? || capturedImage == "" {
        return;
      }
      isLoading := true;
      var imageUrl := capturedImage;
      if imageFile.Some? {
        if uploadedUrl.Some? && uploadedUrl.value != "" {
          imageUrl := uploadedUrl.value;
        }
      }
      petRequest := Some(NewPetFrom(name, petInfo.value, imageUrl));
      if savedPet.Some? {
        var saved := savedPet.value;
        var greeting := OpenAI.CreatePetPersona(aiKey, personaReply);
        greetingRequest := Some(NewChatMessage(saved.id, greeting, true, None));
        AdoptSavedPet(saved, messages);
      }
      isLoading := false;
    }

    /**
     * `handleSendMessage`. Without a selected pet nothing happens. The human
     * message is saved first; if that returns `null` nothing is appended.
     * Otherwise it is appended, the reply is asked for with the history as it
     * was before this message (`sentHistory`; the request carries its last ten
     * entries), and the saved reply, if any, is
     * appended after it. `contextBuilt` is false when reading the pet's
     * personality or today's plan throws, which ends the handler there.
     */
    method HandleSendMessage(message: string, userSaved: Option<ChatMessage>, contextBuilt: bool,
                             aiKey: bool, chatReply: Reply, parse: string -> Option<Json>,
                             aiSaved: Option<ChatMessage>)
      returns (userRequest: Option<NewChatMessage>, sentHistory: Option<seq<HistoryEntry>>,
               aiRequest: Option<NewChatMessage>)
      requires Valid()
      modifies this
      ensures Valid()
      ensures var petResponse := OpenAI.ChatWithPet(aiKey, chatReply, parse);
        aiRequest.Some? ==> aiRequest.value.message == petResponse.response != "" &&
                            aiRequest.value.reasoning == Some(petResponse.reasoning) && petResponse.reasoning != ""
      ensures old(currentPet).None? ==>
        Snap() == old(Snap()) && userRequest.None? && sentHistory.None? && aiRequest.None?
      ensures old(currentPet).Some? ==>
        userRequest == Some(NewChatMessage(old(currentPet).value.id, message, false, None))
      ensures old(currentPet).Some? && userSaved.None? ==>
        Snap() == old(Snap()) && sentHistory.None? && aiRequest.None?
      ensures old(currentPet).Some? && userSaved.Some? && !contextBuilt ==>
        sentHistory.None? && aiRequest.None? &&
        Snap() == old(Snap()).(
          chatMessages := old(chatMessages) + [userSaved.value],
          chatHistory := old(chatHistory) + [HistoryEntry(User, message)])
      ensures old(currentPet).Some? && userSaved.Some? && contextBuilt ==>
        sentHistory == Some(old(chatHistory)) &&
        aiRequest.Some? && aiRequest.value.pet_id == old(currentPet).value.id && aiRequest.value.is_from_pet
      ensures old(currentPet).Some? && userSaved.Some? && contextBuilt && aiSaved.None? ==>
        Snap() == old(Snap()).(
          chatMessages := old(chatMessages) + [userSaved.value],
          chatHistory := old(chatHistory) + [HistoryEntry(User, message)])
      ensures old(currentPet).Some? && userSaved.Some? && contextBuilt && aiSaved.Some? ==>
        Snap() == old(Snap()).(
          chatMessages := old(chatMessages) + [userSaved.value, aiSaved.value],
          chatHistory := old(chatHistory) + [HistoryEntry(User, message),
                                             HistoryEntry(Assistant, OpenAI.ChatWithPet(aiKey, chatReply, parse).response)])
      ensures old(HistoryInSync()) && userRequest.Some? && userSaved.Some? && Echoes(userSaved.value, userRequest.value) &&
              (aiRequest.Some? && aiSaved.Some? ==> Echoes(aiSaved.value, aiRequest.value)) ==>
        HistoryInSync()
    {
      userRequest, sentHistory, aiRequest := None, None, None;
      if currentPet.None? {
        return;
      }
      var pet := currentPet.value;
      var history := chatHistory;
      userRequest := Some(NewChatMessage(pet.id, message, false, None));
      if userSaved.None? {
        return;
      }
      AppendTurn(userSaved.value, HistoryEntry(User, message));
      if !contextBuilt {
        return;
      }
      sentHistory := Some(history);
      var petResponse := OpenAI.ChatWithPet(aiKey, chatReply, parse);
      aiRequest := Some(NewChatMessage(pet.id, petResponse.response, true, Some(petResponse.reasoning)));
      if aiSaved.Some? {
        AppendTurn(aiSaved.value, HistoryEntry(Assistant, petResponse.response));
      }
    }

    /** Append one stored message and its history entry; an entry derived from the message keeps the two in sync. */
    method AppendTurn(stored: ChatMessage, entry: HistoryEntry)
      requires Valid()
      modifies this
      ensures Valid()
      ensures Snap() == old(Snap()).(chatMessages := old(chatMessages) + [stored], chatHistory := old(chatHistory) + [entry])
      ensures old(HistoryInSync()) && entry == HistoryEntryOf(stored) ==> HistoryInSync()
    {
      if HistoryInSync() && entry == HistoryEntryOf(stored) {
        ChatHistoryAppend(chatMessages, stored);
      }
      chatMessages := chatMessages + [stored];
      chatHistory := chatHistory + [entry];
    }

    method HandleShowDietPlan()
      modifies this
      ensures Snap() == old(Snap()).(currentStep := Diet)
    {
      currentStep := Diet;
    }

    method HandleShowPawMood()
      modifies this
      ensures Snap() == old(Snap()).(currentStep := PawMood)
    {
      currentStep := PawMood;
    }

    method HandleBackToDashboard()
      modifies this
      ensures Snap() == old(Snap()).(currentStep := Dashboard)
    {
      currentStep := Dashboard;
    }

    /** `handleBackToChat`: reload the selected pet's plan, then open the chat. */
    method HandleBackToChat(plan: Fetch<Option<DietPlan>>)
      modifies this
      ensures old(currentPet).None? ==> Snap() == old(Snap()).(currentStep := Chat)
      ensures old(currentPet).Some? ==> Snap() == old(Snap()).(
        currentDietPlan := if plan.Fetched? then plan.value else old(currentDietPlan),
        currentStep := Chat)
    {
      if currentPet.Some? {
        LoadDietPlan(plan);
      }
      currentStep := Chat;
    }
  }
}
