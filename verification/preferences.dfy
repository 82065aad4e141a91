/** The onboarding preference routes of server/src/routes/users.js. Both
    write through `findByIdAndUpdate`, which does not run the user's
    `pre('save')` hook, so `effectiveGenres` keeps its old value. */
module Preferences {
  import opened Common
  import opened UserModel

  datatype PrefError = UserNotFound

  /** `POST /:userId/preferences`: genres and moods replaced (missing ones by
      empty lists), onboarding marked complete. */
  function SavePreferences(user: Option<UserDoc>, genres: Option<seq<string>>, moods: Option<seq<string>>): (r: Result<UserDoc, PrefError>)
    ensures user.None? <==> r.Failure?
    ensures r.Success? ==>
              r.value.preferredGenres == Some(OrEmpty(genres))
              && r.value.preferredMoods == Some(OrEmpty(moods))
              && r.value.onboardingCompleted
              && r.value.detectedGenres == user.value.detectedGenres
              && r.value.detectedArtists == user.value.detectedArtists
              && r.value.effectiveGenres == user.value.effectiveGenres
  {
    match user
    case None => Failure(UserNotFound)
    case Some(u) =>
      Success(u.(preferredGenres := Some(OrEmpty(genres)), preferredMoods := Some(OrEmpty(moods)), onboardingCompleted := true))
  }

  /** `PATCH /:userId/preferences`: only the fields present in the body change. */
  function PatchPreferences(user: Option<UserDoc>, genres: Option<seq<string>>, moods: Option<seq<string>>): (r: Result<UserDoc, PrefError>)
    ensures user.None? <==> r.Failure?
    ensures r.Success? ==>
              r.value.preferredGenres == (if genres.Some? then genres else user.value.preferredGenres)
              && r.value.preferredMoods == (if moods.Some? then moods else user.value.preferredMoods)
              && r.value.onboardingCompleted == user.value.onboardingCompleted
              && r.value.effectiveGenres == user.value.effectiveGenres
    ensures r.Success? ==>
              r.value == user.value.(preferredGenres := if genres.Some? then genres else user.value.preferredGenres,
                                     preferredMoods := if moods.Some? then moods else user.value.preferredMoods)
  {
    match user
    case None => Failure(UserNotFound)
    case Some(u) =>
      var withGenres := if genres.Some? then u.(preferredGenres := genres) else u;
      Success(if moods.Some? then withGenres.(preferredMoods := moods) else withGenres)
  }

  /** A patch with an empty body changes nothing. */
  lemma EmptyPatchIsIdentity(user: Option<UserDoc>)
    requires user.Some?
    ensures PatchPreferences(user, None, None) == Success(user.value)
  {
  }

  /** Because the hook is bypassed, a genre the user saves is missing from the
      stored `effectiveGenres` whenever it was missing before, although the
      hook would put it there on the next save. */
  lemma SavedGenreNotEffective(u: UserDoc, genres: seq<string>, moods: Option<seq<string>>, g: string)
    requires g in genres && g !in u.effectiveGenres
    ensures var r := SavePreferences(Some(u), Some(genres), moods);
            r.Success? && g !in r.value.effectiveGenres && g in EffectiveGenres(r.value)
  {
  }

  /** Because the hook is bypassed, a saved preference list can disagree with
      `effectiveGenres` until the document is next saved: a freshly created
      user who picks "rock" still has an empty effective list. */
  lemma SavedGenresNotEffective()
    ensures var u := UserDoc(Some([]), Some([]), false, Some([]), Some([]), []);
            var r := SavePreferences(Some(u), Some(["rock"]), None);
            r.Success? && r.value.effectiveGenres == [] && EffectiveGenres(r.value) == ["rock"]
  {
    var u := UserDoc(Some([]), Some([]), false, Some([]), Some([]), []);
    var saved := SavePreferences(Some(u), Some(["rock"]), None).value;
    assert OrEmpty(saved.preferredGenres) + Take(OrEmpty(saved.detectedGenres), DetectedInEffective) == ["rock"];
    assert ["rock"][1..] == [];
  }
}
