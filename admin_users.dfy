/** The customer table of `components/admin-user-management.jsx`: the listing
    filter, the status change over the `users` state, the active/inactive toggle, the
    avatar initials and the status badge colour. */
module AdminUsers {
  import opened Wrappers
  import Text
  import Seqs

  datatype User = User(id: int, name: string, email: string, joinDate: string,
                       status: string, orders: int, totalSpent: real, lastLogin: string)

  const Statuses: seq<string> := ["all", "active", "inactive", "banned"]
  const AllStatuses := "all"
  const Gray := "bg-gray-100 text-gray-800"

  /** Name or email contains the term ignoring ASCII case, and the status filter is
      "all" or the user's own status. */
  predicate Listed(u: User, term: string, status: string) {
    (Text.ContainsIgnoreCase(u.name, term) || Text.ContainsIgnoreCase(u.email, term))
    && (status == AllStatuses || u.status == status)
  }

  /** `filteredUsers`. */
  function Listing(users: seq<User>, term: string, status: string): seq<User> {
    Seqs.Filter(users, (u: User) => Listed(u, term, status))
  }

  /** `users.map(u => u.id === id ? { ...u, status } : u)`: every user with the id
      gets the new status and nothing else about any user changes. */
  function WithStatus(users: seq<User>, id: int, status: string): (r: seq<User>)
    ensures |r| == |users|
    ensures forall i :: 0 <= i < |r| ==> r[i].(status := users[i].status) == users[i]
    ensures forall i :: 0 <= i < |r| ==>
              r[i].status == (if users[i].id == id then status else users[i].status)
  {
    seq(|users|, i requires 0 <= i < |users| =>
      if users[i].id == id then users[i].(status := status) else users[i])
  }

  /** The status the row's toggle button sends. */
  function Toggled(status: string): (r: string)
    ensures r in {"active", "inactive"}
    ensures r == "inactive" <==> status == "active"
  {
    if status == "active" then "inactive" else "active"
  }

  /** The first character of a word; an empty word (two spaces in a row) has none,
      and `undefined` joins as the empty string. */
  function Head(w: string): string {
    if w == "" then "" else [w[0]]
  }

  function Heads(words: seq<string>): (r: string)
    ensures |r| <= |words|
    decreases |words|
  {
    if words == [] then "" else Head(words[0]) + Heads(words[1..])
  }

  /** `name.split(" ").map(n => n[0]).join("")`. */
  function Initials(name: string): string {
    Heads(Text.Split(name, ' '))
  }

  /** `getStatusColor`. */
  function StatusColor(status: string): (r: string)
    ensures r == Gray <==> status !in {"active", "inactive", "banned"}
  {
    match status
    case "active" => "bg-green-100 text-green-800"
    case "inactive" => "bg-yellow-100 text-yellow-800"
    case "banned" => "bg-red-100 text-red-800"
    case _ => Gray
  }

  class UserManager {
    var users: seq<User>
    var searchTerm: string
    var selectedStatus: string
    var selectedUser: Option<User>

    constructor (initial: seq<User>)
      ensures users == initial && searchTerm == "" && selectedStatus == AllStatuses
      ensures selectedUser == None
    {
      users := initial;
      searchTerm := "";
      selectedStatus := AllStatuses;
      selectedUser := None;
    }

    function FilteredUsers(): seq<User>
      reads this
    {
      Listing(users, searchTerm, selectedStatus)
    }

    /** `updateUserStatus`. */
    method UpdateUserStatus(id: int, status: string)
      modifies this
      ensures users == WithStatus(old(users), id, status)
      ensures searchTerm == old(searchTerm) && selectedStatus == old(selectedStatus)
      ensures selectedUser == old(selectedUser)
    {
      users := WithStatus(users, id, status);
    }

    /** The row's deactivate/activate button. */
    method ToggleStatus(u: User)
      modifies this
      ensures users == WithStatus(old(users), u.id, Toggled(u.status))
      ensures searchTerm == old(searchTerm) && selectedStatus == old(selectedStatus)
      ensures selectedUser == old(selectedUser)
    {
      UpdateUserStatus(u.id, Toggled(u.status));
    }
  }

  // ---------------------------------------------------------------- lemmas

  /** A user is listed iff the name or email contains the term ignoring case and the
      filter is "all" or the user's status; the listing keeps the table order. */
  lemma ListingSpec(users: seq<User>, term: string, status: string)
    ensures forall u :: u in Listing(users, term, status) <==>
      u in users &&
      (Text.Contains(Text.Lower(u.name), Text.Lower(term)) ||
       Text.Contains(Text.Lower(u.email), Text.Lower(term))) &&
      (status == "all" || u.status == status)
    ensures Seqs.Subsequence(Listing(users, term, status), users)
  {
    Seqs.FilterMembers(users, (u: User) => Listed(u, term, status));
    Seqs.FilterSubsequence(users, (u: User) => Listed(u, term, status));
  }

  /** Toggling twice gives back "active" and "inactive"; every other status (such as
      "banned") becomes "active" after the first toggle and "inactive" after the
      second. */
  lemma ToggleTwice(status: string)
    ensures status in {"active", "inactive"} ==> Toggled(Toggled(status)) == status
    ensures status !in {"active", "inactive"} ==> Toggled(Toggled(status)) == "inactive"
  {
  }

  /** Toggling a user twice in the table restores it when the status was "active"
      or "inactive". */
  lemma ToggleTwiceInTable(users: seq<User>, u: User)
    requires u.status in {"active", "inactive"}
    requires forall v :: v in users && v.id == u.id ==> v.status == u.status
    ensures var once := WithStatus(users, u.id, Toggled(u.status));
      WithStatus(once, u.id, Toggled(Toggled(u.status))) == users
  {
    var once := WithStatus(users, u.id, Toggled(u.status));
    var twice := WithStatus(once, u.id, Toggled(Toggled(u.status)));
    forall i | 0 <= i < |users| ensures twice[i] == users[i] {
      assert users[i] in users;
      if users[i].id == u.id {
        assert twice[i].(status := users[i].status) == users[i];
      }
    }
  }

  lemma {:induction false} HeadsOfWords(words: seq<string>)
    requires forall i :: 0 <= i < |words| ==> words[i] != ""
    ensures Heads(words) == seq(|words|, i requires 0 <= i < |words| => words[i][0])
    decreases |words|
  {
    if words != [] {
      HeadsOfWords(words[1..]);
    }
  }

  /** The initials of a name made of non-empty words joined by single spaces are the
      words' first characters, one per word. */
  lemma InitialsOfWords(words: seq<string>)
    requires |words| >= 1
    requires forall i :: 0 <= i < |words| ==> words[i] != "" && ' ' !in words[i]
    ensures Initials(Text.Join(words, " ")) == seq(|words|, i requires 0 <= i < |words| => words[i][0])
  {
    Text.SplitJoin(words, ' ');
    HeadsOfWords(words);
  }

  lemma InitialsExample()
    ensures Initials("John Doe") == "JD"
  {
    InitialsOfWords(["John", "Doe"]);
    assert Text.Join(["John", "Doe"], " ") == "John Doe";
  }
}
