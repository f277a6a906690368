/** The login form of src/pages/Login.tsx: failed-attempt counting and a
    timed lockout. The simulated request delay and the one-second countdown
    interval are separate step methods. */
module LoginPage {
  import opened Wrappers
  import opened Text

  const MaxAttempts: nat := 3
  /** Seconds, i.e. countdown ticks. */
  const LockoutDuration: nat := 30

  const ValidUsername: string := "admin"
  const ValidPassword: string := "admin"
  const HomeRoute: string := "/bots"

  /** The message shown when the failure that reaches the limit locks the form. */
  function LockedMessage(): (m: string)
    ensures m == "Conta bloqueada temporariamente. Aguarde 30 segundos."
  {
    "Conta bloqueada temporariamente. Aguarde " + NatToString(LockoutDuration) + " segundos."
  }

  /** The message after an earlier failure, naming how many tries remain;
      the nouns are singular for one remaining try and plural otherwise. */
  function RetryMessage(remaining: nat): (m: string)
    ensures remaining > 1 ==> m == "Usuário ou senha incorretos. " + NatToString(remaining) + " tentativas restantes."
    ensures remaining <= 1 ==> m == "Usuário ou senha incorretos. " + NatToString(remaining) + " tentativa restante."
  {
    var plural := if remaining > 1 then "s" else "";
    "Usuário ou senha incorretos. " + NatToString(remaining) + " tentativa" + plural + " restante" + plural + "."
  }

  /** The demo credential check. */
  predicate Accepted(username: string, password: string)
  {
    username == ValidUsername && password == ValidPassword
  }

  /** The submit button's enable rule. */
  function SubmitEnabled(isLoading: bool, isLocked: bool, username: string, password: string): (r: bool)
    ensures r ==> !isLocked && !isLoading
    ensures r <==> !(isLoading || isLocked || |username| == 0 || |password| == 0)
  {
    !isLoading && !isLocked && username != "" && password != ""
  }

  /** The countdown value `k` ticks after the interval saw `t`: one less per
      tick, and zero from the tick that saw a value of at most one. */
  function AfterTicks(t: nat, k: nat): (r: nat)
    ensures k < t ==> r == t - k
    ensures k >= t ==> r == 0
  {
    if k == 0 then t
    else if t <= 1 then 0
    else AfterTicks(t - 1, k - 1)
  }

  /** A lockout lasts exactly `LockoutDuration` ticks: the timer stays positive
      (the form locked) for the first 29 ticks and reaches zero on the 30th. */
  lemma LockoutLength(k: nat)
    ensures AfterTicks(LockoutDuration, k) > 0 <==> k < LockoutDuration
  {
  }

  class LoginForm {
    var username: string
    var password: string
    var isLoading: bool
    var error: Option<string>
    var attempts: nat
    var isLocked: bool
    var lockoutTimer: nat
    /** The route navigated to, once the credentials were accepted. */
    var location: Option<string>

    /** Locked means the limit was reached, the countdown runs and the lockout
        message shows; unlocked means fewer failures than the limit and no countdown. */
    ghost predicate Valid()
      reads this
    {
      && (isLocked ==> attempts == MaxAttempts && 1 <= lockoutTimer <= LockoutDuration
                       && !isLoading && error == Some(LockedMessage()))
      && (!isLocked ==> attempts < MaxAttempts && lockoutTimer == 0)
    }

    constructor ()
      ensures Valid()
      ensures username == "" && password == "" && !isLoading && error == None
      ensures attempts == 0 && !isLocked && lockoutTimer == 0 && location == None
    {
      username := "";
      password := "";
      isLoading := false;
      error := None;
      attempts := 0;
      isLocked := false;
      lockoutTimer := 0;
      location := None;
    }

    /** Whether the submit button is enabled. */
    function CanSubmit(): (r: bool)
      reads this
      ensures r <==> SubmitEnabled(isLoading, isLocked, username, password)
    {
      SubmitEnabled(isLoading, isLocked, username, password)
    }

    /** Typing into the username field; inputs are disabled while loading or locked. */
    method SetUsername(value: string)
      requires Valid() && !isLoading && !isLocked
      modifies this`username
      ensures Valid() && username == value
    {
      username := value;
    }

    method SetPassword(value: string)
      requires Valid() && !isLoading && !isLocked
      modifies this`password
      ensures Valid() && password == value
    {
      password := value;
    }

    /** `handleSubmit` up to the simulated request: a locked form changes
        nothing; otherwise the error is cleared and the form starts loading.
        Every control that submits is disabled while loading. */
    method Submit()
      requires Valid() && !isLoading
      modifies this
      ensures Valid()
      ensures old(isLocked) ==> unchanged(this)
      ensures !old(isLocked) ==> (isLoading && error == None && attempts == old(attempts)
        && !isLocked && lockoutTimer == 0 && username == old(username)
        && password == old(password) && location == old(location))
    {
      if isLocked {
        return;
      }
      error := None;
      isLoading := true;
    }

    /** `handleSubmit` after the simulated request: `admin`/`admin` navigates
        to the bots page; any other pair counts one more failure, and the one
        that reaches `MaxAttempts` locks the form for `LockoutDuration` ticks. */
    method CompleteSubmit()
      requires Valid() && isLoading
      modifies this
      ensures Valid() && !isLoading
      ensures username == old(username) && password == old(password)
      ensures Accepted(username, password) ==> (location == Some(HomeRoute)
        && attempts == old(attempts) && error == old(error) && !isLocked && lockoutTimer == 0)
      ensures !Accepted(username, password) ==>
        location == old(location) && attempts == old(attempts) + 1
      ensures !Accepted(username, password) && attempts == MaxAttempts ==>
        isLocked && lockoutTimer == LockoutDuration && error == Some(LockedMessage())
      ensures !Accepted(username, password) && attempts < MaxAttempts ==>
        !isLocked && error == Some(RetryMessage(MaxAttempts - attempts))
    {
      if Accepted(username, password) {
        location := Some(HomeRoute);
      } else {
        var newAttempts := attempts + 1;
        attempts := newAttempts;
        if newAttempts >= MaxAttempts {
          error := Some(LockedMessage());
          isLocked := true;
          lockoutTimer := LockoutDuration;
        } else {
          var remaining := MaxAttempts - newAttempts;
          error := Some(RetryMessage(remaining));
        }
      }
      isLoading := false;
    }

    /** One firing of the lockout interval: the tick that sees at most one
        unlocks the form, resets the counter and clears the error; every other
        tick counts down by one, so the countdown follows `AfterTicks`. */
    method TimerTick()
      requires Valid() && isLocked
      modifies this
      ensures Valid()
      ensures lockoutTimer == AfterTicks(old(lockoutTimer), 1)
      ensures !isLocked <==> old(lockoutTimer) <= 1
      ensures !isLocked ==> attempts == 0 && error == None
      ensures isLocked ==> attempts == old(attempts) && error == old(error)
      ensures username == old(username) && password == old(password)
      ensures isLoading == old(isLoading) && location == old(location)
    {
      if lockoutTimer <= 1 {
        isLocked := false;
        attempts := 0;
        error := None;
        lockoutTimer := 0;
      } else {
        lockoutTimer := lockoutTimer - 1;
      }
    }
  }
}
