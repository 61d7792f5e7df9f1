/** The study-rooms page: a mock sign-in over an in-memory user list and a
    chat view to which the signed-in user can post. The clock (`Date.now()`
    and the formatted time) is passed in by the caller. */
module StudyRoom {
  import opened Wrappers
  import opened Strings

  datatype Message = Message(id: string, sender: string, senderId: string, content: string,
                             timestamp: string, isOwn: bool)

  /** A chat in the list; `participants` is given for group chats only. */
  datatype Chat = Chat(id: string, name: string, lastMessage: string, timestamp: string,
                       unread: nat, isOnline: bool, isGroup: bool, participants: Option<seq<string>>)

  datatype User = User(id: string, email: string, name: string, isOnline: bool)

  const InitialChats: seq<Chat> := [
    Chat("1", "Math Study Group", "Can someone explain problem 5?", "10:30 AM", 2, true, true, Some(["1", "2", "3"])),
    Chat("2", "Physics Project Team", "The presentation is due tomorrow", "9:15 AM", 0, true, true, Some(["1", "4", "5"])),
    Chat("3", "Sarah Johnson", "See you in class!", "Yesterday", 0, false, false, None),
    Chat("4", "History Study Buddies", "Did you finish the reading?", "Yesterday", 5, true, true, Some(["1", "6", "7"])),
    Chat("5", "Michael Chen", "Thanks for the notes!", "Monday", 0, true, false, None)
  ]

  const InitialUsers: seq<User> := [
    User("1", "user@example.com", "You", true),
    User("2", "sarah@example.com", "Sarah Johnson", false),
    User("3", "mike@example.com", "Michael Chen", true),
    User("4", "alex@example.com", "Alex Turner", true),
    User("5", "emma@example.com", "Emma Wilson", false),
    User("6", "david@example.com", "David Brown", true),
    User("7", "lisa@example.com", "Lisa Garcia", true)
  ]

  const InitialMessages: seq<Message> := [
    Message("1", "Sarah Johnson", "2", "Hi everyone! Ready to start our study session?", "10:25 AM", false),
    Message("2", "You", "1", "Yes, I've reviewed the material. What topic should we start with?", "10:26 AM", true),
    Message("3", "Math Study Group", "group-1",
            "Let's start with calculus derivatives. I'm still struggling with chain rule applications.", "10:27 AM", false),
    Message("4", "You", "1", "I can help with that. Let me share a good resource I found.", "10:28 AM", true),
    Message("5", "Sarah Johnson", "2", "That would be great! I'm also confused about implicit differentiation.", "10:30 AM", false)
  ]

  /** No two users share an email. */
  predicate UniqueEmails(users: seq<User>)
  {
    forall i, j :: 0 <= i < j < |users| ==> users[i].email != users[j].email
  }

  /** `users.find(u => u.email === email)`, as the index of the first user
      with exactly that email. */
  function FindByEmail(users: seq<User>, email: string): (r: Option<nat>)
    ensures r.None? <==> forall k :: 0 <= k < |users| ==> users[k].email != email
    ensures r.Some? ==> r.value < |users| && users[r.value].email == email
    ensures r.Some? ==> forall k :: 0 <= k < r.value ==> users[k].email != email
  {
    if users == [] then None
    else if users[0].email == email then Some(0)
    else
      match FindByEmail(users[1..], email)
      case None =>
        assert forall k :: 1 <= k < |users| ==> users[k] == users[1..][k - 1];
        None
      case Some(i) =>
        assert forall k :: 1 <= k < i + 1 ==> users[k] == users[1..][k - 1];
        Some(i + 1)
  }

  /** With unique emails the user found is the only one with that email. */
  lemma FoundIsOnly(users: seq<User>, email: string, k: nat)
    requires UniqueEmails(users)
    requires k < |users| && users[k].email == email
    ensures FindByEmail(users, email) == Some(k)
  {
  }

  /** `users.map(u => u.id === id ? {...u, isOnline: online} : u)`. */
  function SetOnline(users: seq<User>, id: string, online: bool): (r: seq<User>)
    ensures |r| == |users|
  {
    seq(|users|, k requires 0 <= k < |users| =>
      if users[k].id == id then users[k].(isOnline := online) else users[k])
  }

  /** Changing a presence flag changes that flag on the users with the id,
      and nothing else: ids, emails and names stay, other users are equal. */
  lemma SetOnlineOnly(users: seq<User>, id: string, online: bool)
    ensures forall k :: 0 <= k < |users| ==>
              SetOnline(users, id, online)[k].id == users[k].id
              && SetOnline(users, id, online)[k].email == users[k].email
              && SetOnline(users, id, online)[k].name == users[k].name
    ensures forall k :: 0 <= k < |users| ==>
              SetOnline(users, id, online)[k].isOnline == (if users[k].id == id then online else users[k].isOnline)
    ensures UniqueEmails(users) ==> UniqueEmails(SetOnline(users, id, online))
  {
  }

  /** A user not yet registered can be appended without repeating an email. */
  lemma AppendKeepsUnique(users: seq<User>, u: User)
    requires UniqueEmails(users)
    requires FindByEmail(users, u.email).None?
    ensures UniqueEmails(users + [u])
  {
    var r := users + [u];
    forall i, j | 0 <= i < j < |r|
      ensures r[i].email != r[j].email
    {
      if j == |users| {
        assert r[i] == users[i];
      } else {
        assert r[i] == users[i] && r[j] == users[j];
      }
    }
  }

  /** `chats.map(chat => chat.id === activeChat ? {...chat, lastMessage: text, timestamp: 'now'} : chat)`. */
  function UpdateLastMessage(chats: seq<Chat>, activeChat: string, text: string): (r: seq<Chat>)
    ensures |r| == |chats|
  {
    seq(|chats|, k requires 0 <= k < |chats| =>
      if chats[k].id == activeChat then chats[k].(lastMessage := text, timestamp := "now") else chats[k])
  }

  /** Only the active chat's preview and time change; every other chat,
      and every other field of the active one, stays. */
  lemma UpdateLastMessageOnly(chats: seq<Chat>, activeChat: string, text: string)
    ensures forall k :: 0 <= k < |chats| && chats[k].id != activeChat ==>
              UpdateLastMessage(chats, activeChat, text)[k] == chats[k]
    ensures forall k :: 0 <= k < |chats| && chats[k].id == activeChat ==>
              UpdateLastMessage(chats, activeChat, text)[k].lastMessage == text
              && UpdateLastMessage(chats, activeChat, text)[k].timestamp == "now"
              && UpdateLastMessage(chats, activeChat, text)[k].(lastMessage := chats[k].lastMessage, timestamp := chats[k].timestamp) == chats[k]
  {
  }

  /** The user is in the list, under the same id and email. */
  predicate Registered(users: seq<User>, u: User)
  {
    exists k :: 0 <= k < |users| && users[k].id == u.id && users[k].email == u.email
  }

  /** The page's state. */
  class Room {
    var isAuthenticated: bool
    var currentUser: Option<User>
    var email: string
    var password: string
    var name: string
    var isRegistering: bool
    var chats: seq<Chat>
    var users: seq<User>
    var messages: seq<Message>
    var newMessage: string
    var activeChat: string

    /** Emails are unique, and a user is signed in exactly when there is a
        current user, who is registered. */
    predicate Valid()
      reads this
    {
      UniqueEmails(users)
      && (isAuthenticated <==> currentUser.Some?)
      && (currentUser.Some? ==> Registered(users, currentUser.value))
    }

    constructor ()
      ensures Valid()
      ensures !isAuthenticated && currentUser == None && email == "" && password == "" && name == ""
      ensures !isRegistering && chats == InitialChats && users == InitialUsers
      ensures messages == InitialMessages && newMessage == "" && activeChat == "1"
    {
      isAuthenticated := false;
      currentUser := None;
      email := "";
      password := "";
      name := "";
      isRegistering := false;
      chats := InitialChats;
      users := InitialUsers;
      messages := InitialMessages;
      newMessage := "";
      activeChat := "1";
    }

    /** The sign-in and registration form fields. */
    method EnterCredentials(email': string, password': string, name': string)
      modifies this
      requires Valid()
      ensures Valid()
      ensures email == email' && password == password' && name == name'
      ensures isAuthenticated == old(isAuthenticated) && currentUser == old(currentUser) && users == old(users)
      ensures chats == old(chats) && messages == old(messages) && newMessage == old(newMessage)
      ensures activeChat == old(activeChat) && isRegistering == old(isRegistering)
    {
      email, password, name := email', password', name';
    }

    /** The link that switches between the sign-in and registration forms. */
    method ToggleRegistering()
      modifies this
      requires Valid()
      ensures Valid()
      ensures isRegistering == !old(isRegistering)
      ensures isAuthenticated == old(isAuthenticated) && currentUser == old(currentUser) && users == old(users)
      ensures email == old(email) && password == old(password) && name == old(name)
      ensures chats == old(chats) && messages == old(messages) && newMessage == old(newMessage) && activeChat == old(activeChat)
    {
      isRegistering := !isRegistering;
    }

    /** `handleLogin`: with both fields filled in, the first user with that
        email becomes current and is marked online; the password is never
        compared. The current user is the record as it was before the
        update. Otherwise nothing changes. */
    method Login()
      modifies this
      requires Valid()
      ensures Valid()
      ensures old(email) == "" || old(password) == "" || FindByEmail(old(users), old(email)).None? ==>
                isAuthenticated == old(isAuthenticated) && currentUser == old(currentUser) && users == old(users)
      ensures old(email) != "" && old(password) != "" && FindByEmail(old(users), old(email)).Some? ==>
                var found := old(users)[FindByEmail(old(users), old(email)).value];
                isAuthenticated && currentUser == Some(found) && users == SetOnline(old(users), found.id, true)
      ensures email == old(email) && password == old(password) && name == old(name)
      ensures chats == old(chats) && messages == old(messages) && newMessage == old(newMessage)
      ensures activeChat == old(activeChat) && isRegistering == old(isRegistering)
    {
      if email == "" || password == "" {
        return;
      }
      var found := FindByEmail(users, email);
      if found.Some? {
        var user := users[found.value];
        currentUser := Some(user);
        isAuthenticated := true;
        SetOnlineOnly(users, user.id, true);
        users := SetOnline(users, user.id, true);
        assert users[found.value].id == user.id && users[found.value].email == user.email;
      }
    }

    /** `handleRegister`: with all three fields filled in and an email not
        yet taken, one online user with id `user-<now>` is appended and
        becomes current. Otherwise nothing changes. */
    method Register(now: nat)
      modifies this
      requires Valid()
      ensures Valid()
      ensures old(email) == "" || old(password) == "" || old(name) == "" || FindByEmail(old(users), old(email)).Some? ==>
                isAuthenticated == old(isAuthenticated) && currentUser == old(currentUser) && users == old(users)
      ensures old(email) != "" && old(password) != "" && old(name) != "" && FindByEmail(old(users), old(email)).None? ==>
                var u := User("user-" + NatToString(now), old(email), old(name), true);
                isAuthenticated && currentUser == Some(u) && users == old(users) + [u]
      ensures email == old(email) && password == old(password) && name == old(name)
      ensures chats == old(chats) && messages == old(messages) && newMessage == old(newMessage)
      ensures activeChat == old(activeChat) && isRegistering == old(isRegistering)
    {
      if email == "" || password == "" || name == "" {
        return;
      }
      if FindByEmail(users, email).Some? {
        return;
      }
      var u := User("user-" + NatToString(now), email, name, true);
      AppendKeepsUnique(users, u);
      users := users + [u];
      currentUser := Some(u);
      isAuthenticated := true;
      assert users[|users| - 1] == u;
    }

    /** `handleLogout`: the current user, if any, is marked offline; then
        nobody is signed in and the form is emptied. */
    method Logout()
      modifies this
      requires Valid()
      ensures Valid()
      ensures old(currentUser).Some? ==> users == SetOnline(old(users), old(currentUser).value.id, false)
      ensures old(currentUser).None? ==> users == old(users)
      ensures !isAuthenticated && currentUser == None && email == "" && password == "" && name == ""
      ensures chats == old(chats) && messages == old(messages) && newMessage == old(newMessage)
      ensures activeChat == old(activeChat) && isRegistering == old(isRegistering)
    {
      if currentUser.Some? {
        SetOnlineOnly(users, currentUser.value.id, false);
        users := SetOnline(users, currentUser.value.id, false);
      }
      isAuthenticated := false;
      currentUser := None;
      email := "";
      password := "";
      name := "";
    }

    /** Typing in the message box. */
    method TypeMessage(text: string)
      modifies this
      requires Valid()
      ensures Valid()
      ensures newMessage == text
      ensures isAuthenticated == old(isAuthenticated) && currentUser == old(currentUser) && users == old(users)
      ensures email == old(email) && password == old(password) && name == old(name)
      ensures chats == old(chats) && messages == old(messages) && activeChat == old(activeChat)
      ensures isRegistering == old(isRegistering)
    {
      newMessage := text;
    }

    /** Choosing a chat in the list. */
    method SelectChat(id: string)
      modifies this
      requires Valid()
      ensures Valid()
      ensures activeChat == id
      ensures isAuthenticated == old(isAuthenticated) && currentUser == old(currentUser) && users == old(users)
      ensures email == old(email) && password == old(password) && name == old(name)
      ensures chats == old(chats) && messages == old(messages) && newMessage == old(newMessage)
      ensures isRegistering == old(isRegistering)
    {
      activeChat := id;
    }

    /** `handleSendMessage`: a message that is blank once trimmed, or no
        current user, changes nothing. Otherwise one own message with the
        untrimmed text is appended, the box is emptied, and the active
        chat shows the text as its last message, at time 'now'. */
    method SendMessage(now: nat, time: string)
      modifies this
      requires Valid()
      ensures Valid()
      ensures IsBlank(old(newMessage)) || old(currentUser).None? ==>
                messages == old(messages) && newMessage == old(newMessage) && chats == old(chats)
      ensures !IsBlank(old(newMessage)) && old(currentUser).Some? ==>
                var u := old(currentUser).value;
                messages == old(messages) + [Message(NatToString(now), u.name, u.id, old(newMessage), time, true)]
                && newMessage == ""
                && chats == UpdateLastMessage(old(chats), old(activeChat), old(newMessage))
      ensures isAuthenticated == old(isAuthenticated) && currentUser == old(currentUser) && users == old(users)
      ensures email == old(email) && password == old(password) && name == old(name)
      ensures activeChat == old(activeChat) && isRegistering == old(isRegistering)
    {
      var blank := TrimsToEmpty(newMessage);
      if blank || currentUser.None? {
        return;
      }
      var u := currentUser.value;
      var msg := Message(NatToString(now), u.name, u.id, newMessage, time, true);
      messages := messages + [msg];
      var text := newMessage;
      newMessage := "";
      chats := UpdateLastMessage(chats, activeChat, text);
    }
  }

  /** Signing in as a registered user picks that very user, whatever the
      password: with unique emails the first match is the only match. */
  lemma LoginPicksOwner(users: seq<User>, k: nat)
    requires UniqueEmails(users) && k < |users|
    ensures FindByEmail(users, users[k].email) == Some(k)
    ensures SetOnline(users, users[k].id, true)[k].isOnline
  {
    FoundIsOnly(users, users[k].email, k);
  }
}
