/** The `users` collection of the document store: one document per user,
    whose document id is the username. */
module UserRepo {
  import opened Values

  /** A user document as the two registration paths write it; the second
      registration path leaves out the phone number.  `password` holds the
      password hash, never the password. */
  datatype User = User(name: string, username: string, email: string, phone: Option<string>,
                       password: string, createdAt: int)

  /** Some user document holds the e-mail address. */
  predicate EmailIn(users: map<string, User>, email: string) {
    exists id :: id in users && users[id].email == email
  }

  /** After a user is saved, an address is taken exactly when it is the saved
      user's or it belongs to a user under another username; the address of
      the document the save replaced is no longer found through it. */
  lemma SaveUserEmails(users: map<string, User>, user: User, email: string)
    ensures EmailIn(users[user.username := user], email) <==>
      email == user.email || exists id :: id in users && id != user.username && users[id].email == email
  {
    var after := users[user.username := user];
    if email == user.email {
      assert after[user.username].email == email;
    }
    if exists id :: id in users && id != user.username && users[id].email == email {
      var id :| id in users && id != user.username && users[id].email == email;
      assert after[id] == users[id];
    }
  }

  class UserStore {
    var users: map<string, User>

    constructor ()
      ensures users == map[]
    {
      users := map[];
    }

    /** `get_user_by_username`: the document whose id is the username. */
    function GetUserByUsername(username: string): (r: Option<User>)
      reads this
      ensures r.Some? <==> username in users
      ensures r.Some? ==> r.value == users[username]
    {
      if username in users then Some(users[username]) else None
    }

    /** `get_user_by_email` finds a document: some user has that e-mail address. */
    predicate HasEmail(email: string)
      reads this
    {
      EmailIn(users, email)
    }

    /** `save_user`, and the direct `document(username).set(...)`: the
        document under the username is written, replacing any earlier one. */
    method SaveUser(user: User)
      modifies this
      ensures users == old(users)[user.username := user]
    {
      users := users[user.username := user];
    }
  }
}
