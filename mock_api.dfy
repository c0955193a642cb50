/** The in-memory data layer: the tutor, user and conversation tables, the queries over
    them and the two operations that change them. */
module MockApi {
  import opened Builtins
  import opened Types

  // ----- The seed data -----

  const TUTOR_1 := Tutor("1", "Dr. Eleanor Vance", 120, "New York, NY", ["Physics", "Calculus", "Astrophysics"],
    "PhD in Physics with 10+ years of tutoring experience. I make complex topics easy to understand.",
    "https://picsum.photos/seed/eleanor/200/200", 12,
    ["PhD in Physics, MIT", "M.S. in Applied Mathematics"], 75,
    map[Monday := ["4:00 PM - 8:00 PM"], Tuesday := ["4:00 PM - 8:00 PM"],
        Wednesday := ["4:00 PM - 8:00 PM"], Thursday := ["4:00 PM - 8:00 PM"],
        Friday := ["4:00 PM - 8:00 PM"]],
    true)

  const TUTOR_2 := Tutor("2", "Samuel Jones", 85, "San Francisco, CA", ["Computer Science", "Python", "Java"],
    "Software Engineer at a top tech company. Passionate about teaching coding to beginners.",
    "https://picsum.photos/seed/samuel/200/200", 7,
    ["B.S. in Computer Science, Stanford", "Google Certified Developer"], 60,
    map[Tuesday := ["6:00 PM - 9:00 PM"], Thursday := ["6:00 PM - 9:00 PM"],
        Saturday := ["10:00 AM - 4:00 PM"]],
    true)

  const TUTOR_3 := Tutor("3", "Maria Garcia", 210, "Miami, FL", ["Spanish", "French", "ESL"],
    "Native Spanish speaker with a degree in linguistics. Let's make learning a new language fun!",
    "https://picsum.photos/seed/maria/200/200", 8,
    ["M.A. in Linguistics", "Certified Language Instructor"], 45,
    map[],
    false)

  const TUTOR_4 := Tutor("4", "David Chen", 95, "Chicago, IL", ["Biology", "Chemistry", "MCAT Prep"],
    "Medical student with a knack for breaking down hard science concepts for high school and college students.",
    "https://picsum.photos/seed/david/200/200", 4,
    ["B.S. in Biology, UChicago", "99th Percentile MCAT Score"], 65,
    map[Monday := ["6:00 PM - 10:00 PM"], Wednesday := ["6:00 PM - 10:00 PM"],
        Sunday := ["12:00 PM - 5:00 PM"]],
    true)

  const TUTOR_5 := Tutor("5", "Jessica Miller", 150, "New York, NY", ["English", "SAT Prep", "Literature"],
    "Published author and experienced SAT tutor. I help students craft compelling essays and ace their exams.",
    "https://picsum.photos/seed/jessica/200/200", 9,
    ["M.F.A. in Creative Writing, Columbia", "Certified SAT Instructor"], 70,
    map[Monday := ["3:00 PM - 7:00 PM"], Tuesday := ["3:00 PM - 7:00 PM"],
        Wednesday := ["3:00 PM - 7:00 PM"], Thursday := ["3:00 PM - 7:00 PM"],
        Friday := ["3:00 PM - 7:00 PM"]],
    true)

  const TUTOR_6 := Tutor("6", "Ben Carter", 70, "San Francisco, CA", ["History", "Government", "Debate"],
    "History buff and debate coach. I love helping students develop critical thinking and public speaking skills.",
    "https://picsum.photos/seed/ben/200/200", 6,
    ["M.A. in History, UC Berkeley"], 50,
    map[Saturday := ["1:00 PM - 5:00 PM"], Sunday := ["1:00 PM - 5:00 PM"]],
    false)

  const TUTOR_7 := Tutor("7", "Chloe Kim", 110, "Los Angeles, CA", ["Art", "Design", "Adobe Photoshop"],
    "Professional graphic designer helping aspiring artists build their portfolios and master digital tools.",
    "https://picsum.photos/seed/chloe/200/200", 10,
    ["B.F.A. in Graphic Design, RISD", "Adobe Certified Expert"], 55,
    map[Monday := ["10:00 AM - 5:00 PM"], Wednesday := ["10:00 AM - 5:00 PM"],
        Friday := ["10:00 AM - 5:00 PM"]],
    true)

  /** `allTutorsData` as the module loads it. */
  const SEED_TUTORS: seq<Tutor> := [TUTOR_1, TUTOR_2, TUTOR_3, TUTOR_4, TUTOR_5, TUTOR_6, TUTOR_7]

  const TEST_STUDENT := User("student1", "Test Student", "https://picsum.photos/seed/student/100/100")

  /** The user entry a tutor appears under. */
  function UserOf(t: Tutor): User
  {
    User(t.id, t.name, t.imageUrl)
  }

  /** The test student followed by one user entry per tutor. */
  function SeedUsers(tutors: seq<Tutor>): (users: seq<User>)
    ensures |users| == |tutors| + 1 && users[0] == TEST_STUDENT
    ensures forall i :: 0 <= i < |tutors| ==> users[i + 1] == UserOf(tutors[i])
  {
    [TEST_STUDENT] + seq(|tutors|, i requires 0 <= i < |tutors| => UserOf(tutors[i]))
  }

  const HOUR := 1000 * 60 * 60

  /** The one conversation the store starts with, stamped relative to the load time `now`. */
  function SeedConversations(users: seq<User>, now: int): seq<Conversation>
    requires |users| >= 2
  {
    [Conversation("c1", [users[0], users[1]], [
      Message("m1", "student1", "Hi Dr. Vance, I am interested in Physics tutoring.", now - 24 * HOUR),
      Message("m2", "1", "Hello! I would be happy to help. When are you available?", now - 23 * HOUR)])]
  }

  // ----- Lookups -----

  function TutorIdIs(id: string): Tutor -> bool { (t: Tutor) => t.id == id }

  function UserIdIs(id: string): User -> bool { (u: User) => u.id == id }

  function ConversationIdIs(id: string): Conversation -> bool { (c: Conversation) => c.id == id }

  /** A two-person conversation in which both users take part. */
  predicate Between(c: Conversation, a: string, b: string)
  {
    |c.participants| == 2 && HasParticipant(c, a) && HasParticipant(c, b)
  }

  function BetweenTest(a: string, b: string): Conversation -> bool { c => Between(c, a, b) }

  /** `getTopTutors`: the first four tutors. */
  function GetTopTutors(tutors: seq<Tutor>): (r: seq<Tutor>)
    ensures |r| == Min(4, |tutors|) && r <= tutors
  {
    Slice(tutors, 0, 4)
  }

  /** `getTutorById`: the first tutor with the id, if any. */
  function GetTutorById(tutors: seq<Tutor>, id: string): (r: Option<Tutor>)
    ensures r.None? <==> forall i :: 0 <= i < |tutors| ==> tutors[i].id != id
    ensures r.Some? ==> r.value.id == id && r.value in tutors
    ensures r.Some? ==>
      exists k :: 0 <= k < |tutors| && tutors[k] == r.value && forall j :: 0 <= j < k ==> tutors[j].id != id
  {
    Find(tutors, TutorIdIs(id))
  }

  /** `getConversationById`: the first conversation with the id, if any. */
  function GetConversationById(cs: seq<Conversation>, id: string): (r: Option<Conversation>)
    ensures r.None? <==> forall i :: 0 <= i < |cs| ==> cs[i].id != id
    ensures r.Some? ==> r.value.id == id && r.value in cs
    ensures r.Some? ==>
      exists k :: 0 <= k < |cs| && cs[k] == r.value && forall j :: 0 <= j < k ==> cs[j].id != id
  {
    Find(cs, ConversationIdIs(id))
  }

  // ----- The conversation list -----

  predicate AllHaveMessages(cs: seq<Conversation>)
  {
    forall i :: 0 <= i < |cs| ==> |cs[i].messages| > 0
  }

  /** The time of the last message, the key the conversation list is sorted by. */
  function LastActivity(c: Conversation): int
    requires |c.messages| > 0
  {
    c.messages[|c.messages| - 1].timestamp
  }

  predicate NewestFirst(cs: seq<Conversation>)
    requires AllHaveMessages(cs)
  {
    forall i, j :: 0 <= i < j < |cs| ==> LastActivity(cs[i]) >= LastActivity(cs[j])
  }

  /** Puts `c` in a newest-first list, before every conversation no newer than it. */
  function InsertByActivity(c: Conversation, cs: seq<Conversation>): (r: seq<Conversation>)
    requires |c.messages| > 0 && AllHaveMessages(cs)
    ensures AllHaveMessages(r)
    ensures multiset(r) == multiset(cs) + multiset{c}
  {
    if cs == [] || LastActivity(c) >= LastActivity(cs[0]) then [c] + cs
    else
      assert cs == [cs[0]] + cs[1..];
      [cs[0]] + InsertByActivity(c, cs[1..])
  }

  /** Inserting into a newest-first list gives a newest-first list. */
  lemma {:induction false} InsertKeepsNewestFirst(c: Conversation, cs: seq<Conversation>)
    requires |c.messages| > 0 && AllHaveMessages(cs) && NewestFirst(cs)
    ensures NewestFirst(InsertByActivity(c, cs))
  {
    if cs != [] && LastActivity(c) < LastActivity(cs[0]) {
      var rest := InsertByActivity(c, cs[1..]);
      InsertKeepsNewestFirst(c, cs[1..]);
      NoNewerThanHead(c, cs);
      var r := [cs[0]] + rest;
      forall i, j | 0 <= i < j < |r| ensures LastActivity(r[i]) >= LastActivity(r[j]) {
        if i == 0 {
          assert r[j] == rest[j - 1] && rest[j - 1] in rest;
        } else {
          assert r[i] == rest[i - 1] && r[j] == rest[j - 1];
        }
      }
    }
  }

  /** Everything inserted behind the head of a newest-first list is no newer than it, when
      the inserted conversation is older than the head. */
  lemma NoNewerThanHead(c: Conversation, cs: seq<Conversation>)
    requires |c.messages| > 0 && AllHaveMessages(cs) && NewestFirst(cs)
    requires cs != [] && LastActivity(c) < LastActivity(cs[0])
    ensures forall x :: x in InsertByActivity(c, cs[1..]) ==> LastActivity(x) <= LastActivity(cs[0])
  {
    var rest := InsertByActivity(c, cs[1..]);
    forall x | x in rest ensures LastActivity(x) <= LastActivity(cs[0]) {
      assert x in multiset(rest);
      if x != c {
        assert x in multiset(cs[1..]);
        var k :| 0 <= k < |cs[1..]| && cs[1..][k] == x;
        assert cs[k + 1] == x;
      }
    }
  }

  /** Sorts newest first; conversations with the same last-message time keep their order. */
  function SortByActivity(cs: seq<Conversation>): (r: seq<Conversation>)
    requires AllHaveMessages(cs)
    ensures AllHaveMessages(r) && NewestFirst(r)
    ensures multiset(r) == multiset(cs)
  {
    if cs == [] then []
    else
      assert cs == [cs[0]] + cs[1..];
      var sorted := SortByActivity(cs[1..]);
      InsertKeepsNewestFirst(cs[0], sorted);
      InsertByActivity(cs[0], sorted)
  }

  function InvolvesTest(userId: string): Conversation -> bool { c => HasParticipant(c, userId) }

  /** `getConversations`: the conversations the user takes part in, newest first. */
  function GetConversations(cs: seq<Conversation>, userId: string): (r: seq<Conversation>)
    requires AllHaveMessages(cs)
    ensures AllHaveMessages(r) && NewestFirst(r)
    ensures multiset(r) == multiset(Filter(cs, InvolvesTest(userId)))
    ensures forall c :: c in r <==> c in cs && HasParticipant(c, userId)
  {
    var involved := Filter(cs, InvolvesTest(userId));
    FilterKeepsPassing(cs, InvolvesTest(userId));
    var r := SortByActivity(involved);
    assert forall c :: c in r <==> c in multiset(involved);
    r
  }

  function HoldsMessage(messageId: string): Conversation -> bool { c => HasMessage(c, messageId) }

  /** A participant the app takes for the tutor: one whose id does not contain "student". */
  predicate NotStudent(p: User)
  {
    !Includes(p.id, "student")
  }

  /** `getTutorIdFromMessage`: in the first conversation holding a message with the same
      id, the first participant whose id does not contain "student". */
  function GetTutorIdFromMessage(cs: seq<Conversation>, m: Message): (r: Option<string>)
    ensures r.Some? ==> !Includes(r.value, "student")
    ensures r.Some? ==> exists k :: 0 <= k < |cs| && HasMessage(cs[k], m.id) && HasParticipant(cs[k], r.value)
    ensures (forall k :: 0 <= k < |cs| ==> !HasMessage(cs[k], m.id)) ==> r.None?
    ensures var k := FindIndex(cs, HoldsMessage(m.id));
      r.Some? <==> 0 <= k && exists i :: 0 <= i < |cs[k].participants| && NotStudent(cs[k].participants[i])
    ensures var k := FindIndex(cs, HoldsMessage(m.id));
      r.Some? ==>
        && 0 <= k
        && exists i :: 0 <= i < |cs[k].participants| && cs[k].participants[i].id == r.value &&
             NotStudent(cs[k].participants[i]) && forall j :: 0 <= j < i ==> !NotStudent(cs[k].participants[j])
  {
    var k := FindIndex(cs, HoldsMessage(m.id));
    if k < 0 then None
    else match Find(cs[k].participants, NotStudent)
      case None => None
      case Some(p) => Some(p.id)
  }

  // ----- Login -----

  datatype Account = AsUser(user: User) | AsTutor(tutor: Tutor)

  datatype LoginResult = LoginResult(success: bool, message: string, token: Option<string>, user: Option<Account>)

  /** `loginUser`: two fixed credential pairs, the tutor's checked first. */
  function LoginUser(tutors: seq<Tutor>, users: seq<User>, email: string, password: string): (r: LoginResult)
    ensures r.success <==> password == "password" && (email == "eleanor@example.com" || email == "test@example.com")
    ensures r.success <==> r.token.Some?
    ensures !r.success ==> r.user.None? && r.message == "Invalid email or password."
    ensures r.success && email == "eleanor@example.com" ==>
      r.token == Some("fake-jwt-token-tutor") &&
      (r.user.Some? <==> exists i :: 0 <= i < |tutors| && tutors[i].id == "1") &&
      (r.user.Some? ==> r.user.value.AsTutor? && r.user.value.tutor.id == "1")
    ensures r.success && email == "eleanor@example.com" ==>
      && r.message == "Tutor login successful!"
      && r.user == (var t := Find(tutors, TutorIdIs("1")); if t.Some? then Some(AsTutor(t.value)) else None)
    ensures r.success && email == "test@example.com" ==>
      r.token == Some("fake-jwt-token") && r.user == (if |users| > 0 then Some(AsUser(users[0])) else None)
    ensures r.success && email == "test@example.com" ==> r.message == "Login successful!"
  {
    if email == "eleanor@example.com" && password == "password" then
      var tutor := Find(tutors, TutorIdIs("1"));
      LoginResult(true, "Tutor login successful!", Some("fake-jwt-token-tutor"),
        if tutor.Some? then Some(AsTutor(tutor.value)) else None)
    else if email == "test@example.com" && password == "password" then
      LoginResult(true, "Login successful!", Some("fake-jwt-token"),
        if |users| > 0 then Some(AsUser(users[0])) else None)
    else
      LoginResult(false, "Invalid email or password.", None, None)
  }

  // ----- Profile updates -----

  /** A `Partial<Tutor>`: each field either left out or given a new value. */
  datatype ProfileUpdate = ProfileUpdate(
    id: Option<string>,
    name: Option<string>,
    reviewCount: Option<int>,
    location: Option<string>,
    subjects: Option<seq<string>>,
    description: Option<string>,
    imageUrl: Option<string>,
    experience: Option<int>,
    qualifications: Option<seq<string>>,
    hourlyRate: Option<int>,
    availability: Option<Availability>,
    isVerified: Option<bool>)

  function Override<T>(update: Option<T>, current: T): T
  {
    if update.Some? then update.value else current
  }

  /** `{ ...tutor, ...updates }` */
  function MergeTutor(t: Tutor, u: ProfileUpdate): Tutor
  {
    Tutor(Override(u.id, t.id), Override(u.name, t.name), Override(u.reviewCount, t.reviewCount),
      Override(u.location, t.location), Override(u.subjects, t.subjects),
      Override(u.description, t.description), Override(u.imageUrl, t.imageUrl),
      Override(u.experience, t.experience), Override(u.qualifications, t.qualifications),
      Override(u.hourlyRate, t.hourlyRate), Override(u.availability, t.availability),
      Override(u.isVerified, t.isVerified))
  }

  /** `{ ...user, ...updates }`, read back as a `User`. */
  function MergeUser(user: User, u: ProfileUpdate): User
  {
    User(Override(u.id, user.id), Override(u.name, user.name), Override(u.imageUrl, user.imageUrl))
  }

  /** Merging the same update twice is merging it once, and every field keeps its value
      unless the update gives it one. */
  lemma MergeTutorIdempotent(t: Tutor, u: ProfileUpdate)
    ensures MergeTutor(MergeTutor(t, u), u) == MergeTutor(t, u)
    ensures var r := MergeTutor(t, u);
      && r.id == (if u.id.Some? then u.id.value else t.id)
      && r.name == (if u.name.Some? then u.name.value else t.name)
      && r.reviewCount == (if u.reviewCount.Some? then u.reviewCount.value else t.reviewCount)
      && r.location == (if u.location.Some? then u.location.value else t.location)
      && r.subjects == (if u.subjects.Some? then u.subjects.value else t.subjects)
      && r.description == (if u.description.Some? then u.description.value else t.description)
      && r.imageUrl == (if u.imageUrl.Some? then u.imageUrl.value else t.imageUrl)
      && r.experience == (if u.experience.Some? then u.experience.value else t.experience)
      && r.qualifications == (if u.qualifications.Some? then u.qualifications.value else t.qualifications)
      && r.hourlyRate == (if u.hourlyRate.Some? then u.hourlyRate.value else t.hourlyRate)
      && r.availability == (if u.availability.Some? then u.availability.value else t.availability)
      && r.isVerified == (if u.isVerified.Some? then u.isVerified.value else t.isVerified)
  {
  }

  datatype UpdateResult = UpdateResult(success: bool, user: Option<Account>)

  // ----- The store -----

  /** The three tables `services/api.ts` keeps in module variables. */
  class MockStore {
    var tutors: seq<Tutor>
    var users: seq<User>
    var conversations: seq<Conversation>

    /** The conversation list can always be sorted by its last messages. */
    ghost predicate Valid()
      reads this
    {
      AllHaveMessages(conversations)
    }

    /** The tables as the module loads them at time `now`. */
    constructor (now: int)
      ensures Valid()
      ensures tutors == SEED_TUTORS && users == SeedUsers(SEED_TUTORS)
      ensures conversations == SeedConversations(users, now)
    {
      var seeded := SeedUsers(SEED_TUTORS);
      assert |SEED_TUTORS| == 7;
      tutors := SEED_TUTORS;
      users := seeded;
      new;
      conversations := SeedConversations(seeded, now);
      assert |conversations[0].messages| == 2;
    }

    /** `addMessage`: appends to the first two-person conversation between sender and
        receiver, or opens a new one when both users are known, or fails. */
    method AddMessage(senderId: string, receiverId: string, text: string,
                      messageId: string, conversationId: string, timestamp: int)
      returns (r: Result<(Message, Conversation)>)
      requires Valid()
      modifies this
      ensures Valid()
      ensures tutors == old(tutors) && users == old(users)
      ensures var m := Message(messageId, senderId, text, timestamp);
        var k := FindIndex(old(conversations), BetweenTest(senderId, receiverId));
        0 <= k ==>
          && conversations == old(conversations)[k := old(conversations)[k].(messages := old(conversations)[k].messages + [m])]
          && |conversations| == |old(conversations)|
          && conversations[k] == old(conversations)[k].(messages := old(conversations)[k].messages + [m])
          && (forall j :: 0 <= j < |conversations| && j != k ==> conversations[j] == old(conversations)[j])
          && r == Ok((m, conversations[k]))
      ensures var m := Message(messageId, senderId, text, timestamp);
        var sender, receiver := Find(users, UserIdIs(senderId)), Find(users, UserIdIs(receiverId));
        FindIndex(old(conversations), BetweenTest(senderId, receiverId)) < 0 ==>
          if sender.Some? && receiver.Some? then
            var c := Conversation(conversationId, [sender.value, receiver.value], [m]);
            conversations == old(conversations) + [c] && r == Ok((m, c))
          else
            conversations == old(conversations) && r == Err("User not found")
    {
      var k := FindIndex(conversations, BetweenTest(senderId, receiverId));
      var m := Message(messageId, senderId, text, timestamp);
      if 0 <= k {
        var c := conversations[k].(messages := conversations[k].messages + [m]);
        conversations := conversations[k := c];
        r := Ok((m, c));
      } else {
        var sender := Find(users, UserIdIs(senderId));
        var receiver := Find(users, UserIdIs(receiverId));
        if sender.None? || receiver.None? {
          r := Err("User not found");
          return;
        }
        var c := Conversation(conversationId, [sender.value, receiver.value], [m]);
        conversations := conversations + [c];
        r := Ok((m, c));
      }
    }

    /** `updateUserProfile`: merges into the first tutor with the id (copying the new name
        and picture into that user's entry), else into the first user with the id. */
    method UpdateUserProfile(userId: string, updates: ProfileUpdate) returns (r: UpdateResult)
      requires Valid()
      modifies this
      ensures Valid() && conversations == old(conversations)
      ensures var ti := FindIndex(old(tutors), TutorIdIs(userId));
        var ui := FindIndex(old(users), UserIdIs(userId));
        0 <= ti ==>
          && tutors == old(tutors)[ti := MergeTutor(old(tutors)[ti], updates)]
          && users == (if 0 <= ui
                       then old(users)[ui := old(users)[ui].(name := tutors[ti].name, imageUrl := tutors[ti].imageUrl)]
                       else old(users))
          && r == UpdateResult(true, Some(AsTutor(tutors[ti])))
      ensures var ti := FindIndex(old(tutors), TutorIdIs(userId));
        var ui := FindIndex(old(users), UserIdIs(userId));
        ti < 0 && 0 <= ui ==>
          && tutors == old(tutors)
          && users == old(users)[ui := MergeUser(old(users)[ui], updates)]
          && r == UpdateResult(true, Some(AsUser(users[ui])))
      ensures FindIndex(old(tutors), TutorIdIs(userId)) < 0 && FindIndex(old(users), UserIdIs(userId)) < 0 ==>
        tutors == old(tutors) && users == old(users) && r == UpdateResult(false, None)
    {
      var ti := FindIndex(tutors, TutorIdIs(userId));
      if 0 <= ti {
        var updated := MergeTutor(tutors[ti], updates);
        tutors := tutors[ti := updated];
        var ui := FindIndex(users, UserIdIs(userId));
        if 0 <= ui {
          users := users[ui := users[ui].(name := updated.name, imageUrl := updated.imageUrl)];
        }
        return UpdateResult(true, Some(AsTutor(updated)));
      }
      var ui := FindIndex(users, UserIdIs(userId));
      if 0 <= ui {
        var updated := MergeUser(users[ui], updates);
        users := users[ui := updated];
        return UpdateResult(true, Some(AsUser(updated)));
      }
      r := UpdateResult(false, None);
    }
  }
}
