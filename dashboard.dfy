/**
 * The dashboard page: the load sequence with its subscription gate, the
 * prediction submit handler, and the conditions that lock the input and
 * label the button.
 */
module Dashboard {
  import opened Common
  import opened Text
  import opened IntText

  const EnterPrediction := "Please enter a prediction"
  const InvalidNumber := "Please enter a valid number"
  const Active := "active"

  datatype Profile = Profile(id: string, displayName: string, teamName: string, subscriptionStatus: string)
  datatype MatchDay = MatchDay(id: string)

  /** A row of `predictions`; `points` is null until the prediction is scored elsewhere. */
  datatype Prediction = Prediction(id: string, userId: string, matchDayId: string, predictedTotalGoals: int, points: Option<int>)

  /** The write a submission sends to `predictions`. */
  datatype Write =
    | InsertPrediction(userId: string, matchDayId: string, goals: int)
    | UpdatePrediction(predictionId: string, goals: int)

  /** How the backend answered a write: no error, an error object, or an exception. */
  datatype Reply = Succeeded | Failed | Threw

  datatype Route = Stay | ToSignIn | ToPaywall

  /** The outcome of the two guards at the top of the submit handler. */
  datatype Verdict = Rejected(message: string) | Accepted(goals: int)

  /** Missing user, match day or text first; then `parseInt` must give a number that is not negative. */
  function CheckPrediction(hasUser: bool, hasMatchDay: bool, text: string): Verdict
  {
    if !hasUser || !hasMatchDay || text == "" then Rejected(EnterPrediction)
    else match ParseInt(text)
      case None => Rejected(InvalidNumber)
      case Some(n) => if n < 0 then Rejected(InvalidNumber) else Accepted(n)
  }

  /**
   * The three outcomes: the missing-input message exactly when something is
   * missing, the number message exactly when `parseInt` gives NaN or a
   * negative number, and otherwise the parsed, non-negative goals.
   */
  lemma PredictionVerdicts(hasUser: bool, hasMatchDay: bool, text: string)
    ensures CheckPrediction(hasUser, hasMatchDay, text) == Rejected(EnterPrediction)
            <==> !hasUser || !hasMatchDay || text == ""
    ensures CheckPrediction(hasUser, hasMatchDay, text) == Rejected(InvalidNumber)
            <==> hasUser && hasMatchDay && text != "" && (ParseInt(text).None? || ParseInt(text).value < 0)
    ensures CheckPrediction(hasUser, hasMatchDay, text).Accepted?
            ==> CheckPrediction(hasUser, hasMatchDay, text).goals >= 0
                && ParseInt(text) == Some(CheckPrediction(hasUser, hasMatchDay, text).goals)
  {
  }

  /** The text the page loads for a stored prediction of `n` goals is accepted again as exactly `n`. */
  lemma {:induction false} LoadedPredictionResubmits(n: nat)
    ensures CheckPrediction(true, true, IntToString(n)) == Accepted(n)
  {
    RoundTrip(n);
  }

  /** A negative number is rejected with the number message. */
  lemma {:induction false} NegativePredictionRejected(n: int)
    requires n < 0
    ensures CheckPrediction(true, true, IntToString(n)) == Rejected(InvalidNumber)
  {
    RoundTrip(n);
  }

  /**
   * `parseInt` reads a prefix: leading white space is skipped and whatever
   * follows the digits (a fraction, an exponent, letters) is ignored, so
   * "  3.7" is accepted as 3.
   */
  lemma {:induction false} PredictionPrefixAccepted(space: string, n: nat, rest: string)
    requires IsBlank(space)
    requires rest == [] || !IsDecimalDigit(rest[0])
    requires n == 0 ==> rest == [] || (rest[0] != 'x' && rest[0] != 'X')
    ensures CheckPrediction(true, true, space + IntToString(n) + rest) == Accepted(n)
  {
    ParseDecimalPrefix(space, n, rest);
  }

  /** Text made only of white space passes the emptiness check but is not a number. */
  lemma {:induction false} BlankPredictionInvalid(text: string)
    requires text != "" && IsBlank(text)
    ensures CheckPrediction(true, true, text) == Rejected(InvalidNumber)
  {
    NoDigitsIsNaN(text);
  }

  class DashboardPage {
    var user: Option<string>
    var profile: Option<Profile>
    var currentMatchDay: Option<MatchDay>
    var prediction: string
    var existingPrediction: Option<Prediction>
    var isLoading: bool
    var isSubmitting: bool
    var predictionError: string

    constructor ()
      ensures user.None? && profile.None? && currentMatchDay.None? && existingPrediction.None?
      ensures prediction == "" && isLoading && !isSubmitting && predictionError == ""
    {
      user, profile, currentMatchDay := None, None, None;
      prediction, existingPrediction := "", None;
      isLoading, isSubmitting, predictionError := true, false, "";
    }

    /** The input is disabled once the match day closes or a prediction exists. */
    function InputDisabled(isClosed: bool): bool
      reads this
    {
      isClosed || existingPrediction.Some?
    }

    /**
     * The submit button cannot be pressed once the match day closes (the
     * form is then not rendered at all), while submitting, or with an empty input.
     */
    function SubmitDisabled(isClosed: bool): bool
      reads this
    {
      isClosed || isSubmitting || prediction == ""
    }

    function SubmitLabel(): string
      reads this
    {
      if isSubmitting then "Submitting..."
      else if existingPrediction.Some? then "Update Prediction"
      else "Submit Prediction"
    }

    /**
     * `checkAuth`, with the backend's answers as parameters: the signed-in
     * user's id, the profile row (None on error or no row), the open match
     * day, and the user's stored prediction for it.  Returns where the page
     * navigates and whether the match day was queried.
     */
    method CheckAuth(authUser: Option<string>, profileRow: Option<Profile>, matchDayRow: Option<MatchDay>,
                     storedPrediction: Option<Prediction>)
      returns (route: Route, matchDayQueried: bool)
      modifies this`user, this`profile, this`currentMatchDay, this`existingPrediction, this`prediction, this`isLoading
      ensures route == ToSignIn <==> authUser.None?
      ensures route == ToPaywall <==> authUser.Some? && profileRow.Some? && profileRow.value.subscriptionStatus != Active
      ensures matchDayQueried <==> authUser.Some? && profileRow.Some? && profileRow.value.subscriptionStatus == Active
      ensures isLoading == if route == Stay then false else old(isLoading)
      ensures user == if authUser.Some? then authUser else old(user)
      ensures profile == if authUser.Some? && profileRow.Some? then profileRow else old(profile)
      ensures currentMatchDay == if matchDayQueried && matchDayRow.Some? then matchDayRow else old(currentMatchDay)
      ensures var loaded := matchDayQueried && matchDayRow.Some? && storedPrediction.Some?;
              && existingPrediction == (if loaded then storedPrediction else old(existingPrediction))
              && prediction == (if loaded then IntToString(storedPrediction.value.predictedTotalGoals) else old(prediction))
    {
      matchDayQueried := false;
      if authUser.None? {
        route := ToSignIn;
        return;
      }
      user := authUser;
      route := Stay;
      if profileRow.None? {
        isLoading := false;
        return;
      }
      profile := profileRow;
      if profileRow.value.subscriptionStatus != Active {
        route := ToPaywall;
        return;
      }
      matchDayQueried := true;
      if matchDayRow.None? {
        isLoading := false;
        return;
      }
      currentMatchDay := matchDayRow;
      if storedPrediction.Some? {
        existingPrediction := storedPrediction;
        prediction := IntToString(storedPrediction.value.predictedTotalGoals);
      }
      isLoading := false;
    }

    /** The input's `onChange`: stores the text and clears the message if one was shown. */
    method OnPredictionChange(value: string)
      modifies this`prediction, this`predictionError
      ensures prediction == value && predictionError == ""
    {
      prediction := value;
      if predictionError != "" {
        predictionError := "";
      }
    }

    /**
     * `handleSubmitPrediction`, with the backend's answer to the write as a
     * parameter.  Returns the write sent, if any.
     */
    method HandleSubmitPrediction(reply: Reply) returns (write: Option<Write>)
      modifies this`predictionError, this`isSubmitting, this`existingPrediction
      ensures var v := CheckPrediction(user.Some?, currentMatchDay.Some?, prediction);
              && predictionError == (if v.Rejected? then v.message else "")
              && (v.Rejected? ==> write.None? && isSubmitting == old(isSubmitting))
              && (v.Accepted? ==> !isSubmitting && !SubmitDisabled(false))
              && (v.Accepted? && old(existingPrediction).Some? ==>
                    write == Some(UpdatePrediction(old(existingPrediction).value.id, v.goals)))
              && (v.Accepted? && old(existingPrediction).None? ==>
                    write == Some(InsertPrediction(user.value, currentMatchDay.value.id, v.goals)))
              && existingPrediction ==
                   if v.Accepted? && old(existingPrediction).None? && reply == Succeeded
                   then Some(Prediction("", user.value, currentMatchDay.value.id, v.goals, None))
                   else old(existingPrediction)
      ensures old(existingPrediction).None? && existingPrediction.Some? ==>
                InputDisabled(false) && SubmitLabel() == "Update Prediction"
    {
      write := None;
      predictionError := "";
      if user.None? || currentMatchDay.None? || prediction == "" {
        predictionError := EnterPrediction;
        return;
      }
      var predictedGoals := ParseInt(prediction);
      if predictedGoals.None? || predictedGoals.value < 0 {
        predictionError := InvalidNumber;
        return;
      }
      var goals := predictedGoals.value;
      isSubmitting := true;
      if existingPrediction.Some? {
        write := Some(UpdatePrediction(existingPrediction.value.id, goals));
        if reply == Failed {
          isSubmitting := false;
          return;
        }
      } else {
        write := Some(InsertPrediction(user.value, currentMatchDay.value.id, goals));
        if reply == Failed {
          isSubmitting := false;
          return;
        }
        if reply == Succeeded {
          existingPrediction := Some(Prediction("", user.value, currentMatchDay.value.id, goals, None));
        }
      }
      isSubmitting := false;
    }
  }
}
