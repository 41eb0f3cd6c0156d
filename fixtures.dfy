/**
 * The demo fixtures of src/lib/data.ts: three users, two chats, and the
 * two accessors over them.
 */
module Fixtures {
  import opened Wrappers

  datatype User = User(id: string, name: string, avatarUrl: string, email: string)

  datatype DemoSender = ByUser | ByAi | ByOther

  datatype DemoMessage = DemoMessage(
    id: string, text: string, createdAt: string, sender: DemoSender, user: Option<User>)

  datatype DemoChat = DemoChat(
    id: string, title: string, createdAt: string, users: seq<User>, messages: seq<DemoMessage>)

  /** `Array.prototype.find`: the first element satisfying `p`. */
  function Find<T(==)>(xs: seq<T>, p: T -> bool): (r: Option<T>)
    ensures r.Some? ==> r.value in xs && p(r.value)
    ensures r.Some? ==> exists i :: 0 <= i < |xs| && xs[i] == r.value && forall j :: 0 <= j < i ==> !p(xs[j])
    ensures r.None? <==> forall x :: x in xs ==> !p(x)
  {
    if xs == [] then None
    else if p(xs[0]) then
      assert xs[0] == xs[0];
      Some(xs[0])
    else
      var r := Find(xs[1..], p);
      if r.Some? then
        var i :| 0 <= i < |xs[1..]| && xs[1..][i] == r.value && forall j :: 0 <= j < i ==> !p(xs[1..][j]);
        assert xs[i + 1] == r.value;
        assert forall j :: 0 <= j < i + 1 ==> !p(xs[j]) by {
          forall j | 0 <= j < i + 1
            ensures !p(xs[j])
          {
            if j > 0 {
              assert xs[j] == xs[1..][j - 1];
            }
          }
        }
        r
      else
        assert forall x :: x in xs ==> x == xs[0] || x in xs[1..];
        r
  }

  const Alex := User("1", "Alex", "https://picsum.photos/seed/10/40/40", "alex@example.com")
  const Sam := User("2", "Sam", "https://picsum.photos/seed/11/40/40", "sam@example.com")
  const Taylor := User("3", "Taylor", "https://picsum.photos/seed/12/40/40", "taylor@example.com")

  const Users: seq<User> := [Alex, Sam, Taylor]

  const Chats: seq<DemoChat> := [
    DemoChat("chat-1", "Brainstorming Session", "2024-07-29T10:00:00Z", [Alex, Sam], [
      DemoMessage("msg-1", "What are some innovative ideas for sustainable urban living?",
                  "2024-07-29T10:00:15Z", ByUser, Some(Alex)),
      DemoMessage("msg-2",
                  "That's a great question! Some ideas include vertical farming integrated into residential "
                  + "buildings, smart grids for energy distribution, and promoting electric micro-mobility "
                  + "solutions. We could also explore community-owned renewable energy projects.",
                  "2024-07-29T10:01:05Z", ByAi, None),
      DemoMessage("msg-3",
                  "I like the vertical farming idea. How could we make that economically viable for residents?",
                  "2024-07-29T10:02:30Z", ByOther, Some(Sam)),
      DemoMessage("msg-4",
                  "To make vertical farming economically viable, we could implement a subscription model for "
                  + "fresh produce, create educational workshops to generate revenue, and seek government grants "
                  + "for green initiatives. Partnering with local restaurants could also provide a steady income "
                  + "stream.",
                  "2024-07-29T10:03:45Z", ByAi, None)]),
    DemoChat("chat-2", "Planning a trip to Japan", "2024-07-28T14:00:00Z", [Alex, Taylor], [
      DemoMessage("msg-5",
                  "Hey everyone, I'm planning a 2-week trip to Japan. Any must-see places for a first-timer?",
                  "2024-07-28T14:00:20Z", ByUser, Some(Alex)),
      DemoMessage("msg-6",
                  "Definitely! For a first trip, I'd recommend a classic route: Tokyo for the vibrant city life, "
                  + "Kyoto for traditional temples and gardens, and maybe a day trip to Hakone to see Mt. Fuji. "
                  + "Have you thought about getting a Japan Rail Pass?",
                  "2024-07-28T14:01:10Z", ByAi, None)])]

  /** No two users share an id, and no two share an email. */
  lemma UsersAreDistinct()
    ensures |Users| == 3
    ensures forall i, j :: 0 <= i < j < |Users| ==> Users[i].id != Users[j].id
    ensures forall i, j :: 0 <= i < j < |Users| ==> Users[i].email != Users[j].email
  {
  }

  lemma ChatIdsAreDistinct()
    ensures forall i, j :: 0 <= i < j < |Chats| ==> Chats[i].id != Chats[j].id
  {
  }

  /** `getChat`: the fixture chat with the given id, or `undefined`. */
  function GetChat(id: string): (r: Option<DemoChat>)
    ensures r.Some? ==> r.value in Chats && r.value.id == id
    ensures r.None? <==> forall c :: c in Chats ==> c.id != id
  {
    Find(Chats, (c: DemoChat) => c.id == id)
  }

  /** `getChats`: the fixture list itself. */
  function GetChats(): (r: seq<DemoChat>)
    ensures r == Chats
  {
    Chats
  }

  /** Every fixture chat is found by its own id. */
  lemma GetChatFindsEachFixture(i: nat)
    requires i < |Chats|
    ensures GetChat(Chats[i].id) == Some(Chats[i])
  {
    ChatIdsAreDistinct();
  }

  /** The user with a given id, as `users.find(u => u.id === id)`. */
  function UserById(id: string): (r: Option<User>)
    ensures r.Some? ==> r.value in Users && r.value.id == id
    ensures r.None? <==> forall u :: u in Users ==> u.id != id
  {
    Find(Users, (u: User) => u.id == id)
  }

  /** The user with a given email, as `users.find(u => u.email === email)`. */
  function UserByEmail(email: string): (r: Option<User>)
    ensures r.Some? ==> r.value in Users && r.value.email == email
    ensures r.None? <==> forall u :: u in Users ==> u.email != email
  {
    Find(Users, (u: User) => u.email == email)
  }

  /** Ids are unique, so a listed user is the one its id finds. */
  lemma UserByIdOfListed(u: User)
    requires u in Users
    ensures UserById(u.id) == Some(u)
  {
    UsersAreDistinct();
  }
}
