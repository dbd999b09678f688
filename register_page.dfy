/**
 * The sign-up page: password validation with a fixed precedence, the two-step flow that sends
 * consumers without a face photo to the face step, and the face-registration call.
 */
module RegisterPage {
  import opened Types

  const MismatchMessage := "As senhas não coincidem"
  const TooShortMessage := "A senha deve ter pelo menos 6 caracteres"
  const ProcessFailedMessage := "Erro ao processar foto. Tente novamente."
  const ConnectFailedMessage := "Erro ao conectar com o sistema de reconhecimento. Verifique se a API está rodando."
  const MinPasswordLength := 6

  /** The form fields every form state holds (more may be added by `handleInputChange`). */
  predicate HasFields(form: map<string, string>)
  {
    && "name" in form && "email" in form && "password" in form
    && "confirmPassword" in form && "userType" in form
  }

  /** The form the page starts with. */
  function InitialForm(): (r: map<string, string>)
    ensures HasFields(r) && r["userType"] == "consumer" && r["password"] == ""
  {
    map["name" := "", "email" := "", "password" := "", "confirmPassword" := "", "userType" := "consumer"]
  }

  /** The first validation error, if any: a mismatch is reported before a short password. */
  function Validate(password: string, confirm: string): (r: Option<string>)
    ensures r == Some(MismatchMessage) <==> password != confirm
    ensures r == Some(TooShortMessage) <==> password == confirm && |password| < MinPasswordLength
    ensures r.None? <==> password == confirm && |password| >= MinPasswordLength
  {
    if password != confirm then Some(MismatchMessage)
    else if |password| < MinPasswordLength then Some(TooShortMessage)
    else None
  }

  /** Six characters is the shortest password accepted; five is rejected. */
  lemma LengthBoundary(p5: string, p6: string)
    requires |p5| == 5 && |p6| == 6
    ensures Validate(p5, p5) == Some(TooShortMessage)
    ensures Validate(p6, p6).None?
  {
  }

  /** A short password that also mismatches is reported as a mismatch. */
  lemma MismatchWins(password: string, confirm: string)
    requires password != confirm && |password| < MinPasswordLength
    ensures Validate(password, confirm) == Some(MismatchMessage)
  {
  }

  /** What the face-registration call did. */
  datatype FaceOutcome = FaceReply(success: bool) | FaceThrew

  class Register {
    var currentStep: nat
    var form: map<string, string>
    var isLoading: bool
    var error: string
    /** The chosen face photo, by file name. */
    var facePhoto: Option<string>
    var route: Option<string>
    /** The `userId` entry of local storage. */
    var storedUserId: Option<string>

    predicate Valid()
      reads this
    {
      HasFields(form) && (currentStep == 1 || currentStep == 2)
    }

    constructor ()
      ensures Valid() && currentStep == 1 && form == InitialForm()
      ensures !isLoading && error == "" && facePhoto.None? && route.None? && storedUserId.None?
    {
      currentStep := 1;
      form := InitialForm();
      isLoading := false;
      error := "";
      facePhoto := None;
      route := None;
      storedUserId := None;
    }

    /**
     * `handleSubmit`: the first validation error stops the submission; otherwise a consumer
     * without a face photo moves to step 2 and everyone else goes to the login page.
     */
    method HandleSubmit()
      requires Valid()
      modifies this`isLoading, this`error, this`currentStep, this`route
      ensures Valid() && !isLoading
      ensures var v := Validate(form["password"], form["confirmPassword"]);
        && (v.Some? ==> error == v.value && currentStep == old(currentStep) && route == old(route))
        && (v.None? ==> error == "")
      ensures Validate(form["password"], form["confirmPassword"]).None? ==>
        if form["userType"] == "consumer" && facePhoto.None? then currentStep == 2 && route == old(route)
        else route == Some("/login") && currentStep == old(currentStep)
    {
      isLoading := true;
      error := "";
      var v := Validate(form["password"], form["confirmPassword"]);
      if v.Some? {
        error := v.value;
        isLoading := false;
        return;
      }
      if form["userType"] == "consumer" && facePhoto.None? {
        currentStep := 2;
      } else {
        route := Some("/login");
      }
      isLoading := false;
    }

    /** `handleFacePhotoUpload`: the first chosen file, if any, becomes the face photo. */
    method HandleFacePhotoUpload(files: seq<string>)
      modifies this`facePhoto
      ensures files != [] ==> facePhoto == Some(files[0])
      ensures files == [] ==> facePhoto == old(facePhoto)
    {
      if files != [] {
        facePhoto := Some(files[0]);
      }
    }

    /**
     * `completeFaceRegistration` with the generated `userId`: nothing without a face photo;
     * a successful reply stores the id and goes to login, anything else sets an error and stays.
     */
    method CompleteFaceRegistration(userId: string, outcome: FaceOutcome)
      modifies this`isLoading, this`error, this`storedUserId, this`route
      ensures old(facePhoto).None? ==>
        isLoading == old(isLoading) && error == old(error) && storedUserId == old(storedUserId) && route == old(route)
      ensures old(facePhoto).Some? ==> !isLoading
      ensures old(facePhoto).Some? && outcome == FaceReply(true) ==>
        storedUserId == Some(userId) && route == Some("/login") && error == ""
      ensures old(facePhoto).Some? && outcome == FaceReply(false) ==>
        error == ProcessFailedMessage && storedUserId == old(storedUserId) && route == old(route)
      ensures old(facePhoto).Some? && outcome == FaceThrew ==>
        error == ConnectFailedMessage && storedUserId == old(storedUserId) && route == old(route)
    {
      if facePhoto.None? {
        return;
      }
      isLoading := true;
      error := "";
      match outcome {
        case FaceReply(success) =>
          if success {
            storedUserId := Some(userId);
            route := Some("/login");
          } else {
            error := ProcessFailedMessage;
          }
        case FaceThrew =>
          error := ConnectFailedMessage;
      }
      isLoading := false;
    }

    /** `skipFaceRegistration`. */
    method SkipFaceRegistration()
      modifies this`route
      ensures route == Some("/login")
    {
      route := Some("/login");
    }

    /** `handleInputChange`: the named field takes the value and every other field is kept. */
    method HandleInputChange(field: string, value: string)
      requires Valid()
      modifies this`form
      ensures Valid()
      ensures field in form && form[field] == value
      ensures forall k :: k != field ==> (k in form <==> k in old(form))
      ensures forall k :: k != field && k in form ==> form[k] == old(form)[k]
    {
      form := form[field := value];
    }
  }
}
