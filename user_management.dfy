/** The user management page: the search filter, the create and edit payloads and the form resets. */
module UserManagementPage {
  import opened Wrappers
  import opened Domain
  import opened Json
  import Seqs
  import Strings

  /** The six form fields; `role` is the select's text. */
  datatype UserForm = UserForm(fullName: string, email: string, username: string, noHp: string,
                               password: string, role: string)

  /** A user is kept when any of name, email, username or phone, lowercased, contains the
      lowercased term. */
  predicate MatchesSearch(u: Profile, term: string) {
    var t := Strings.ToLower(term);
    Strings.Contains(Strings.ToLower(u.fullName), t) || Strings.Contains(Strings.ToLower(u.email), t)
    || Strings.Contains(Strings.ToLower(u.username), t) || Strings.Contains(Strings.ToLower(u.noHp), t)
  }

  function SearchMatcher(term: string): Profile -> bool {
    (u: Profile) => MatchesSearch(u, term)
  }

  function SearchUsers(users: seq<Profile>, term: string): (r: seq<Profile>)
    ensures forall u :: u in r <==> u in users && MatchesSearch(u, term)
  {
    Seqs.Filter(users, SearchMatcher(term))
  }

  /** The filtered list keeps list order, and the empty term keeps every user. */
  lemma SearchOrderedAndTotal(users: seq<Profile>, term: string)
    ensures Seqs.IsSublist(SearchUsers(users, term), users)
    ensures term == "" ==> SearchUsers(users, term) == users
  {
    Seqs.FilterSublist(users, SearchMatcher(term));
    if term == "" {
      assert Strings.ToLower(term) == "";
      forall i | 0 <= i < |users| ensures MatchesSearch(users[i], term) {
        Strings.ContainsEmpty(Strings.ToLower(users[i].fullName));
      }
      Seqs.FilterAll(users, SearchMatcher(term));
    }
  }

  function BaseFields(f: UserForm): map<string, Value> {
    map["full_name" := Str(f.fullName), "email" := Str(f.email), "username" := Str(f.username),
        "no_hp" := Str(f.noHp), "role" := Str(f.role)]
  }

  /** The edit payload: five fields, plus `password` only when one was typed. */
  function EditPayload(f: UserForm): (v: Value)
    ensures v.Obj?
    ensures ("password" in v.fields) <==> f.password != ""
    ensures "password" in v.fields ==> v.fields["password"] == Str(f.password)
    ensures v.fields.Keys - {"password"} == {"full_name", "email", "username", "no_hp", "role"}
    ensures forall k :: k in BaseFields(f) ==> k in v.fields && v.fields[k] == BaseFields(f)[k]
  {
    var base := BaseFields(f);
    Obj(if f.password != "" then base["password" := Str(f.password)] else base)
  }

  /** The create payload always carries the password with the other five fields. */
  function CreatePayload(f: UserForm): (v: Value)
    ensures v.Obj? && v.fields.Keys == {"full_name", "email", "username", "no_hp", "password", "role"}
    ensures v.fields["password"] == Str(f.password)
    ensures forall k :: k in BaseFields(f) ==> v.fields[k] == BaseFields(f)[k]
  {
    Obj(BaseFields(f)["password" := Str(f.password)])
  }

  /** Once a password was typed, the edit payload carries exactly the create payload's fields. */
  lemma PayloadsAgreeWithPassword(f: UserForm)
    requires f.password != ""
    ensures EditPayload(f) == CreatePayload(f)
  {
  }

  /** `resetForm`: empty fields, role `sales`, no selection. */
  function ResetForm(): (r: (UserForm, Option<Profile>))
    ensures r.0 == UserForm("", "", "", "", "", "sales") && r.1.None?
  {
    (UserForm("", "", "", "", "", "sales"), None)
  }

  /** `openEditModal`: the user's fields with an empty password, and that user selected. */
  function OpenEditForm(u: Profile): (r: (UserForm, Option<Profile>))
    ensures r.0.password == "" && r.1 == Some(u)
    ensures r.0.fullName == u.fullName && r.0.email == u.email && r.0.username == u.username
    ensures r.0.noHp == u.noHp && r.0.role == RoleText(u.role)
  {
    (UserForm(u.fullName, u.email, u.username, u.noHp, "", RoleText(u.role)), Some(u))
  }

  /** Saving an opened user without typing a password sends no password field. */
  lemma EditWithoutPasswordKeepsIt(u: Profile)
    ensures "password" !in EditPayload(OpenEditForm(u).0).fields
  {
  }
}
