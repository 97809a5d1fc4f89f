/**
 * The client-side application store: one object holding the signed-in user,
 * the assessment result, the recommendations, the current career tree, the
 * per-resource watch-progress table and the loading flag.  Each setter
 * replaces one field; `UpdateWatchProgress` replaces the progress table by
 * a copy with one key changed.
 */
module Store {
  import opened Types

  /** The user the store starts with. */
  function DemoUser(): User {
    User("demo-user", "Demo User", "demo@example.com", 1, 250, 1000, None)
  }

  class AppStore {
    var user: Option<User>
    var skillVector: Option<SkillVector>
    var recommendations: seq<CareerRecommendation>
    var currentCareer: Option<CareerTree>
    var watchProgress: map<string, real>
    var isLoading: bool

    constructor ()
      ensures user == Some(DemoUser())
      ensures user.value.level == 1 && user.value.xp == 250 && user.value.maxXp == 1000
      ensures skillVector == None && recommendations == [] && currentCareer == None
      ensures watchProgress == map[] && !isLoading
    {
      user := Some(DemoUser());
      skillVector := None;
      recommendations := [];
      currentCareer := None;
      watchProgress := map[];
      isLoading := false;
    }

    method SetUser(u: Option<User>)
      modifies this
      ensures user == u
      ensures skillVector == old(skillVector) && recommendations == old(recommendations)
      ensures currentCareer == old(currentCareer) && watchProgress == old(watchProgress)
      ensures isLoading == old(isLoading)
    {
      user := u;
    }

    method SetSkillVector(skills: SkillVector)
      modifies this
      ensures skillVector == Some(skills)
      ensures user == old(user) && recommendations == old(recommendations)
      ensures currentCareer == old(currentCareer) && watchProgress == old(watchProgress)
      ensures isLoading == old(isLoading)
    {
      skillVector := Some(skills);
    }

    method SetRecommendations(recs: seq<CareerRecommendation>)
      modifies this
      ensures recommendations == recs
      ensures user == old(user) && skillVector == old(skillVector)
      ensures currentCareer == old(currentCareer) && watchProgress == old(watchProgress)
      ensures isLoading == old(isLoading)
    {
      recommendations := recs;
    }

    method SetCurrentCareer(career: Option<CareerTree>)
      modifies this
      ensures currentCareer == career
      ensures user == old(user) && skillVector == old(skillVector)
      ensures recommendations == old(recommendations) && watchProgress == old(watchProgress)
      ensures isLoading == old(isLoading)
    {
      currentCareer := career;
    }

    /** Records `seconds` under `resourceId`; every other key and every other field is kept. */
    method UpdateWatchProgress(resourceId: string, seconds: real)
      modifies this
      ensures watchProgress == old(watchProgress)[resourceId := seconds]
      ensures resourceId in watchProgress && watchProgress[resourceId] == seconds
      ensures watchProgress.Keys == old(watchProgress).Keys + {resourceId}
      ensures forall k :: k in old(watchProgress) && k != resourceId ==> watchProgress[k] == old(watchProgress)[k]
      ensures user == old(user) && skillVector == old(skillVector)
      ensures recommendations == old(recommendations) && currentCareer == old(currentCareer)
      ensures isLoading == old(isLoading)
    {
      watchProgress := watchProgress[resourceId := seconds];
    }

    method SetLoading(loading: bool)
      modifies this
      ensures isLoading == loading
      ensures user == old(user) && skillVector == old(skillVector)
      ensures recommendations == old(recommendations) && currentCareer == old(currentCareer)
      ensures watchProgress == old(watchProgress)
    {
      isLoading := loading;
    }
  }

  /** Two writes to the same key of the progress table: the later one wins. */
  method LastWriteWins(store: AppStore, resourceId: string, first: real, second: real)
    modifies store
    ensures store.watchProgress == old(store.watchProgress)[resourceId := second]
  {
    store.UpdateWatchProgress(resourceId, first);
    store.UpdateWatchProgress(resourceId, second);
  }
}
