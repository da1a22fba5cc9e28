/**
 * The `User` record. Its id is `let id = UUID()`, outside the memberwise initializer, so every
 * construction of a `User` draws a fresh id: a record can never be rebuilt with its old identity.
 */
module UserModel {
  import opened Common

  datatype User = User(
    id: Uuid,
    name: string,
    age: int,
    profileImageName: string,
    bio: string,
    isOnline: bool,
    lastSeen: Time)

  /** The memberwise initializer `User(name:age:profileImageName:bio:isOnline:lastSeen:)`. */
  method NewUser(ids: UuidSource, name: string, age: int, profileImageName: string, bio: string,
                 isOnline: bool, lastSeen: Time) returns (u: User)
    modifies ids
    ensures u == User(old(ids.next), name, age, profileImageName, bio, isOnline, lastSeen)
    ensures ids.next == old(ids.next) + 1
  {
    var id := ids.Fresh();
    u := User(id, name, age, profileImageName, bio, isOnline, lastSeen);
  }

  /** Every record in `users` was built before the UUID counter reached `next`. */
  ghost predicate Issued(users: seq<User>, next: nat) {
    forall u :: u in users ==> u.id < next
  }

  predicate IdOccurs(users: seq<User>, id: Uuid) {
    exists i :: 0 <= i < |users| && users[i].id == id
  }

  /** `firstIndex(where: { $0.id == id })`. */
  function FirstIndexOfId(users: seq<User>, id: Uuid): (r: Option<nat>)
    ensures r.None? <==> !IdOccurs(users, id)
    ensures r.Some? ==> r.value < |users| && users[r.value].id == id
    ensures r.Some? ==> forall i :: 0 <= i < r.value ==> users[i].id != id
  {
    if |users| == 0 then None
    else if users[0].id == id then Some(0)
    else
      var rest := FirstIndexOfId(users[1..], id);
      assert forall i :: 1 <= i < |users| ==> users[i] == users[1..][i - 1];
      match rest
      case None => None
      case Some(k) => Some(k + 1)
  }

  /**
   * `after` is `before` rebuilt for a status change, as both the roster controller and the
   * simulated data source do: the profile is kept, the online flag is the requested one, and
   * `lastSeen` becomes `now` when going online and stays as it was otherwise.
   */
  predicate StatusApplied(before: User, after: User, isOnline: bool, now: Time) {
    && after.name == before.name
    && after.age == before.age
    && after.profileImageName == before.profileImageName
    && after.bio == before.bio
    && after.isOnline == isOnline
    && after.lastSeen == (if isOnline then now else before.lastSeen)
  }

  /** A record built after every record of `users` is found in none of them. */
  lemma FreshIdNotFound(users: seq<User>, next: nat, id: Uuid)
    requires Issued(users, next) && next <= id
    ensures FirstIndexOfId(users, id) == None
  {
    forall i | 0 <= i < |users|
      ensures users[i].id != id
    {
      assert users[i] in users;
    }
  }

  /** The sample users' bios. */
  const AmandaBio: string := "What is your most favorite childhood memory?"
  const MalteBio: string := "What is the most important lesson you've learned?"
  const JessicaBio: string := "They made a move!"
  const SilaBio: string := "You: I love the people there too, it's so nice"
  const MarieBio: string := "Hahaha that's interesting, it does seem like people here are thriv..."

  /** `User.sampleUsers`, built once at `now` with the five consecutive ids from `firstId`. */
  function SampleUsers(firstId: Uuid, now: Time): seq<User> {
    [ User(firstId, "Amanda", 22, "stroll-1", AmandaBio, true, now),
      User(firstId + 1, "Malte", 31, "stroll-2", MalteBio, false, now - 3600),
      User(firstId + 2, "Jessica", 28, "stroll-3", JessicaBio, true, now),
      User(firstId + 3, "Sila", 25, "stroll-4", SilaBio, false, now - 7200),
      User(firstId + 4, "Marie", 29, "stroll-2", MarieBio, true, now) ]
  }

  /** The static initializer of `User.sampleUsers`: five constructions, five fresh ids. */
  method MakeSampleUsers(ids: UuidSource, now: Time) returns (users: seq<User>)
    modifies ids
    ensures users == SampleUsers(old(ids.next), now)
    ensures ids.next == old(ids.next) + 5
  {
    var amanda := NewUser(ids, "Amanda", 22, "stroll-1", AmandaBio, true, now);
    var malte := NewUser(ids, "Malte", 31, "stroll-2", MalteBio, false, now - 3600);
    var jessica := NewUser(ids, "Jessica", 28, "stroll-3", JessicaBio, true, now);
    var sila := NewUser(ids, "Sila", 25, "stroll-4", SilaBio, false, now - 7200);
    var marie := NewUser(ids, "Marie", 29, "stroll-2", MarieBio, true, now);
    users := [amanda, malte, jessica, sila, marie];
  }

  /** Five users, Amanda, Malte, Jessica, Sila and Marie in that order, holding consecutive ids. */
  lemma SampleUsersShape(firstId: Uuid, now: Time)
    ensures var s := SampleUsers(firstId, now);
      && |s| == 5
      && s[0].name == "Amanda" && s[1].name == "Malte" && s[2].name == "Jessica"
      && s[3].name == "Sila" && s[4].name == "Marie"
      && (forall i :: 0 <= i < |s| ==> s[i].id == firstId + i)
      && Issued(s, firstId + 5)
  {
  }

  /**
   * Amanda, Jessica and Marie are online and were last seen at creation; Malte and Sila are
   * offline, last seen one and two hours before creation.
   */
  lemma SampleUsersPresence(firstId: Uuid, now: Time)
    ensures var s := SampleUsers(firstId, now);
      && s[0].isOnline && !s[1].isOnline && s[2].isOnline && !s[3].isOnline && s[4].isOnline
      && s[0].lastSeen == now && s[2].lastSeen == now && s[4].lastSeen == now
      && s[1].lastSeen == now - 3600
      && s[3].lastSeen == now - 2 * 3600
  {
  }
}
