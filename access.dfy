/**
 * Which YouGile projects a chat user may pick (`get_allowed_projects_for_mm_user`):
 * the projects that are not deleted and list, among their members, a YouGile
 * account whose e-mail equals the chat user's e-mail, both compared stripped
 * and lower-cased. The two remote listings and the chat user's e-mail are inputs.
 */
module Access {
  import opened Wrappers
  import opened Text
  import opened Payload

  /** `(email or "").strip().lower()`. */
  function NormalEmail(email: Option<string>): (r: string)
    ensures |r| <= |email.GetOr("")|
  {
    LowerStr(Strip(email.GetOr("")))
  }

  /** A company account from `/users`; `None` is an absent or null key. */
  datatype Account = Account(id: Option<string>, email: Option<string>)

  /** The project's `users` field after `p.get("users") or {}`: a dictionary's keys, or some other truthy value. */
  datatype Members = Dict(ids: seq<string>) | NotDict

  datatype Project = Project(entity: Entity, deleted: bool, users: Members)

  /** An account that enters the index: a truthy id and a non-empty normalised e-mail. */
  predicate Indexed(a: Account) {
    a.id.Some? && a.id.value != "" && NormalEmail(a.email) != ""
  }

  /** Some indexed account of `roster` has the id `id`. */
  predicate HasAccount(roster: seq<Account>, id: string) {
    exists a :: a in roster && Indexed(a) && a.id.value == id
  }

  /** `roster[i]` is the last indexed account with its id. */
  predicate LastAccount(roster: seq<Account>, i: int)
    requires 0 <= i < |roster| && Indexed(roster[i])
  {
    forall j :: i < j < |roster| ==> !(Indexed(roster[j]) && roster[j].id.value == roster[i].id.value)
  }

  /**
   * `user_email_by_id`: account id to normalised e-mail; an id listed twice
   * keeps the e-mail of its last listing.
   */
  function EmailIndex(roster: seq<Account>): (index: map<string, string>)
    decreases |roster|
  {
    if roster == [] then map[]
    else
      var last := roster[|roster| - 1];
      var index := EmailIndex(roster[..|roster| - 1]);
      if Indexed(last) then index[last.id.value := NormalEmail(last.email)] else index
  }

  /** The index lists exactly the ids of indexed accounts, each with a non-empty e-mail. */
  lemma {:induction false} EmailIndexKeys(roster: seq<Account>, id: string)
    ensures id in EmailIndex(roster) <==> HasAccount(roster, id)
    ensures id in EmailIndex(roster) ==> EmailIndex(roster)[id] != ""
    decreases |roster|
  {
    if roster != [] {
      var init := roster[..|roster| - 1];
      var last := roster[|roster| - 1];
      EmailIndexKeys(init, id);
      assert forall a :: a in roster <==> a in init || a == last;
    }
  }

  /** The index maps an id to the e-mail of the last account listed with it. */
  lemma {:induction false} EmailIndexLastWins(roster: seq<Account>, i: int)
    requires 0 <= i < |roster| && Indexed(roster[i]) && LastAccount(roster, i)
    ensures roster[i].id.value in EmailIndex(roster)
    ensures EmailIndex(roster)[roster[i].id.value] == NormalEmail(roster[i].email)
    decreases |roster|
  {
    var init := roster[..|roster| - 1];
    if i < |roster| - 1 {
      assert init[i] == roster[i];
      EmailIndexLastWins(init, i);
    }
  }

  /** A project the user with normalised e-mail `email` may use. */
  predicate Grants(index: map<string, string>, p: Project, email: string) {
    !p.deleted && p.users.Dict? &&
    exists u :: u in p.users.ids && MapsTo(index, u, email)
  }

  predicate MapsTo(index: map<string, string>, u: string, email: string) {
    u in index && index[u] == email
  }

  /** The granting projects of `ps`, in order. */
  function Granted(index: map<string, string>, ps: seq<Project>, email: string): (r: seq<Project>)
    ensures |r| <= |ps|
    decreases |ps|
  {
    if ps == [] then []
    else
      Granted(index, ps[..|ps| - 1], email) +
      (if Grants(index, ps[|ps| - 1], email) then [ps[|ps| - 1]] else [])
  }

  /** The projects the user may pick: none when the user has no e-mail. */
  function AllowedSpec(actorEmail: Option<string>, roster: seq<Account>, projects: seq<Project>): seq<Project> {
    var email := NormalEmail(actorEmail);
    if email == "" then [] else Granted(EmailIndex(roster), projects, email)
  }

  /** Each project is kept exactly as often as it is listed when it grants access, and dropped otherwise. */
  lemma {:induction false} GrantedCount(index: map<string, string>, ps: seq<Project>, email: string, p: Project)
    ensures multiset(Granted(index, ps, email))[p] == if Grants(index, p, email) then multiset(ps)[p] else 0
    decreases |ps|
  {
    if ps != [] {
      var init := ps[..|ps| - 1];
      GrantedCount(index, init, email, p);
      assert ps == init + [ps[|ps| - 1]];
    }
  }

  /** The listed projects a user may pick are exactly those that grant access to their e-mail. */
  lemma AllowedMembership(actorEmail: Option<string>, roster: seq<Account>, projects: seq<Project>, p: Project)
    ensures p in AllowedSpec(actorEmail, roster, projects) <==>
      NormalEmail(actorEmail) != "" && p in projects && Grants(EmailIndex(roster), p, NormalEmail(actorEmail))
  {
    var email := NormalEmail(actorEmail);
    if email != "" {
      GrantedCount(EmailIndex(roster), projects, email, p);
      assert p in Granted(EmailIndex(roster), projects, email) <==> multiset(Granted(EmailIndex(roster), projects, email))[p] > 0;
    }
  }

  /**
   * The per-project test of `get_allowed_projects_for_mm_user`: a deleted
   * project or one whose `users` is not a dictionary is skipped, otherwise the
   * members are scanned until one maps to the e-mail.
   */
  method ProjectGrants(index: map<string, string>, p: Project, email: string) returns (grants: bool)
    ensures grants == Grants(index, p, email)
  {
    if p.deleted || !p.users.Dict? {
      return false;
    }
    var ids := p.users.ids;
    var j := 0;
    while j < |ids|
      invariant 0 <= j <= |ids|
      invariant forall t :: 0 <= t < j ==> !MapsTo(index, ids[t], email)
    {
      if MapsTo(index, ids[j], email) {
        return true;
      }
      j := j + 1;
    }
    return false;
  }

  /** The loop that fills `user_email_by_id`, one account at a time. */
  method BuildEmailIndex(roster: seq<Account>) returns (index: map<string, string>)
    ensures index == EmailIndex(roster)
  {
    index := map[];
    var i := 0;
    while i < |roster|
      invariant 0 <= i <= |roster|
      invariant index == EmailIndex(roster[..i])
    {
      var a := roster[i];
      assert roster[..i + 1][..i] == roster[..i] && roster[..i + 1][i] == a;
      if Indexed(a) {
        index := index[a.id.value := NormalEmail(a.email)];
      }
      i := i + 1;
    }
    assert roster[..|roster|] == roster;
  }

  /** The loop over the projects, keeping those that grant access, in order. */
  method FilterGranted(index: map<string, string>, projects: seq<Project>, email: string)
    returns (allowed: seq<Project>)
    ensures allowed == Granted(index, projects, email)
  {
    allowed := [];
    var k := 0;
    while k < |projects|
      invariant 0 <= k <= |projects|
      invariant allowed == Granted(index, projects[..k], email)
    {
      var p := projects[k];
      assert projects[..k + 1][..k] == projects[..k] && projects[..k + 1][k] == p;
      var grants := ProjectGrants(index, p, email);
      if grants {
        allowed := allowed + [p];
      }
      k := k + 1;
    }
    assert projects[..|projects|] == projects;
  }

  /**
   * `get_allowed_projects_for_mm_user`, with the chat user's e-mail, the account
   * listing and the project listing passed in: no e-mail, no projects;
   * otherwise the e-mail index is built and the projects filtered through it.
   */
  method AllowedProjects(actorEmail: Option<string>, roster: seq<Account>, projects: seq<Project>)
    returns (allowed: seq<Project>)
    ensures allowed == AllowedSpec(actorEmail, roster, projects)
  {
    var email := NormalEmail(actorEmail);
    if email == "" {
      return [];
    }
    var index := BuildEmailIndex(roster);
    allowed := FilterGranted(index, projects, email);
  }
}
