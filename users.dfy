/** The users page of src/pages/Usuarios.tsx: search, counters, inviting a
    user, toggling a user's status, deleting, and the avatar initials. */
module Users {
  import opened Wrappers
  import opened UserData
  import opened Text
  import Seqs

  /** The search callback: the lowercased query occurs in the lowercased
      name, email or job title. */
  predicate Matches(u: Member, query: string)
  {
    var q := Lower(query);
    Contains(Lower(u.nome), q) || Contains(Lower(u.email), q) || Contains(Lower(u.cargo), q)
  }

  /** `filteredUsers`: the matching users, in list order. */
  function FilterUsers(users: seq<Member>, query: string): (r: seq<Member>)
    ensures Seqs.IsSubsequence(r, users)
    ensures forall i :: 0 <= i < |r| ==> Matches(r[i], query)
    ensures forall i :: 0 <= i < |users| && Matches(users[i], query) ==> users[i] in r
    ensures forall x :: multiset(r)[x] == if Matches(x, query) then multiset(users)[x] else 0
  {
    var keep := (u: Member) => Matches(u, query);
    Seqs.FilterIsSubsequence(users, keep);
    Seqs.FilterMultiset(users, keep);
    Seqs.Filter(users, keep)
  }

  /** The empty search shows every user. */
  lemma EmptySearchShowsAll(users: seq<Member>)
    ensures FilterUsers(users, "") == users
  {
    forall u: Member | u in users ensures Matches(u, "") {
      ContainsEmpty(Lower(u.nome));
    }
    Seqs.FilterAll(users, (u: Member) => Matches(u, ""));
  }

  function ActiveCount(users: seq<Member>): nat
  {
    Seqs.Count(users, (u: Member) => u.status == Ativo)
  }

  function PendingCount(users: seq<Member>): nat
  {
    Seqs.Count(users, (u: Member) => u.status == Pendente)
  }

  /** Active and pending users are disjoint, so together they fit in the list. */
  lemma CounterBound(users: seq<Member>)
    ensures ActiveCount(users) + PendingCount(users) <= |users|
  {
    Seqs.CountDisjoint(users, (u: Member) => u.status == Ativo, (u: Member) => u.status == Pendente);
  }

  /** The invitation form. */
  datatype NewUserForm = NewUserForm(nome: string, email: string, cargo: string, permissao: AccessLevel)

  const EmptyForm: NewUserForm := NewUserForm("", "", "", Viewer)

  /** `handleAddUser`'s guard: name and email are both required. */
  predicate Complete(form: NewUserForm)
  {
    form.nome != "" && form.email != ""
  }

  /** The record an invitation creates. `now` is the clock reading behind the
      id and `isoNow` the ISO timestamp whose date part becomes `dataCriacao`. */
  function Invitation(form: NewUserForm, now: nat, isoNow: string): (m: Member)
    requires Complete(form)
    ensures m.nome == form.nome && m.email == form.email
    ensures m.cargo != "" && (form.cargo != "" ==> m.cargo == form.cargo)
    ensures form.cargo == "" ==> m.cargo == "Usuário"
    ensures m.status == Pendente && m.ultimoAcesso == None
    ensures |m.permissoes| == 1 && m.permissoes[0] == form.permissao
    ensures "user-" <= m.id && 'T' !in m.dataCriacao
    ensures JoinPrefix(m.dataCriacao, isoNow, 'T')
  {
    var pieces := SplitOn(isoNow, 'T');
    SplitPiecesHaveNoSeparator(isoNow, 'T');
    JoinSplitOn(isoNow, 'T');
    JoinFirstPiece(pieces, 'T');
    Member(
      "user-" + NatToString(now),
      form.nome,
      form.email,
      if form.cargo == "" then "Usuário" else form.cargo,
      Pendente,
      None,
      [form.permissao],
      pieces[0])
  }

  /** `d` is the part of `s` before its first `sep` (all of `s` when there is none). */
  predicate JoinPrefix(d: string, s: string, sep: char)
  {
    d <= s && (|d| == |s| || s[|d|] == sep)
  }

  lemma {:induction false} SplitPiecesHaveNoSeparator(s: string, sep: char)
    ensures NoSeparator(SplitOn(s, sep), sep)
  {
    if s != [] {
      SplitPiecesHaveNoSeparator(s[1..], sep);
    }
  }

  lemma JoinFirstPiece(parts: seq<string>, sep: char)
    requires |parts| >= 1
    ensures JoinPrefix(parts[0], Join(parts, sep), sep)
  {
    if |parts| > 1 {
      assert Join(parts, sep) == parts[0] + [sep] + Join(parts[1..], sep);
    }
  }

  /** `toggleUserStatus`'s rule: active users become inactive, everyone else active. */
  function NextStatus(s: UserStatus): (r: UserStatus)
    ensures r != Pendente
    ensures r == Inativo <==> s == Ativo
  {
    if s == Ativo then Inativo else Ativo
  }

  /** Toggling twice restores an active or inactive user; a pending one ends inactive. */
  lemma ToggleTwice(s: UserStatus)
    ensures s != Pendente ==> NextStatus(NextStatus(s)) == s
    ensures s == Pendente ==> NextStatus(NextStatus(s)) == Inativo
  {
  }

  /** `toggleUserStatus(id)` over the list: only users with that id change, and only their status. */
  function ToggleStatus(users: seq<Member>, id: string): (r: seq<Member>)
    ensures |r| == |users|
    ensures forall i :: 0 <= i < |r| && users[i].id == id ==> r[i] == users[i].(status := NextStatus(users[i].status))
    ensures forall i :: 0 <= i < |r| && users[i].id != id ==> r[i] == users[i]
  {
    seq(|users|, i requires 0 <= i < |users| =>
      if users[i].id == id then users[i].(status := NextStatus(users[i].status)) else users[i])
  }

  /** `deleteUser(id)`: the users with another id, in their order. */
  function DeleteUser(users: seq<Member>, id: string): (r: seq<Member>)
    ensures Seqs.IsSubsequence(r, users)
    ensures forall i :: 0 <= i < |r| ==> r[i].id != id
    ensures forall i :: 0 <= i < |users| && users[i].id != id ==> users[i] in r
  {
    var keep := (u: Member) => u.id != id;
    Seqs.FilterIsSubsequence(users, keep);
    Seqs.Filter(users, keep)
  }

  /** Deleting removes exactly the users carrying the id. */
  lemma DeleteUserCount(users: seq<Member>, id: string)
    ensures |DeleteUser(users, id)| == |users| - Seqs.Count(users, (u: Member) => u.id == id)
  {
    Seqs.CountComplement(users, (u: Member) => u.id == id, (u: Member) => u.id != id);
  }

  /** The first character of each non-empty piece (`n[0]` of an empty piece
      is `undefined`, which `join` renders as nothing). */
  function FirstChars(words: seq<string>): (r: string)
    ensures |r| <= |words|
  {
    if words == [] then ""
    else (if words[0] == "" then "" else [words[0][0]]) + FirstChars(words[1..])
  }

  /** A one-pass reference: the non-space characters that start a word. */
  function WordStarts(s: string, atStart: bool): (r: string)
    ensures ' ' !in r
  {
    if s == [] then ""
    else if s[0] == ' ' then WordStarts(s[1..], true)
    else (if atStart then [s[0]] else "") + WordStarts(s[1..], false)
  }

  /** Splitting on spaces and taking first characters is the word-start scan. */
  lemma {:induction false} FirstCharsOfSplit(s: string)
    ensures FirstChars(SplitOn(s, ' ')) == WordStarts(s, true)
    ensures FirstChars(SplitOn(s, ' ')[1..]) == WordStarts(s, false)
  {
    if s != [] {
      FirstCharsOfSplit(s[1..]);
      var rest := SplitOn(s[1..], ' ');
      if s[0] == ' ' {
        assert SplitOn(s, ' ') == [""] + rest;
        assert ([""] + rest)[1..] == rest;
      } else {
        var parts := [[s[0]] + rest[0]] + rest[1..];
        assert SplitOn(s, ' ') == parts;
        assert parts[1..] == rest[1..];
      }
    }
  }

  /** `getInitials`: the first characters of the space-separated words, at
      most two of them, uppercased. */
  function GetInitials(name: string): (r: string)
    ensures |r| <= 2
    ensures r == Upper(Prefix2(WordStarts(name, true)))
    ensures ' ' !in r
    ensures forall i :: 0 <= i < |r| ==> !IsAsciiLower(r[i])
  {
    var firsts := FirstChars(SplitOn(name, ' '));
    FirstCharsOfSplit(name);
    var r := Upper(if |firsts| <= 2 then firsts else firsts[..2]);
    assert forall i :: 0 <= i < |r| ==> r[i] == UpperChar(Prefix2(WordStarts(name, true))[i]);
    r
  }

  function Prefix2(s: string): string
  {
    if |s| <= 2 then s else s[..2]
  }

  class UsersPage {
    var users: seq<Member>
    var searchQuery: string
    var isNewUserOpen: bool
    var newUser: NewUserForm

    constructor (initial: seq<Member>)
      ensures users == initial && searchQuery == "" && !isNewUserOpen && newUser == EmptyForm
    {
      users := initial;
      searchQuery := "";
      isNewUserOpen := false;
      newUser := EmptyForm;
    }

    function Visible(): seq<Member>
      reads this
    {
      FilterUsers(users, searchQuery)
    }

    method SetSearch(q: string)
      modifies this`searchQuery
      ensures searchQuery == q
    {
      searchQuery := q;
    }

    method EditForm(form: NewUserForm)
      modifies this`newUser
      ensures newUser == form
    {
      newUser := form;
    }

    /** `handleAddUser`: an incomplete form changes nothing; otherwise the
        invitation is prepended, the form resets and the dialog closes. */
    method HandleAddUser(now: nat, isoNow: string)
      modifies this
      ensures !Complete(old(newUser)) ==> unchanged(this)
      ensures Complete(old(newUser)) ==>
        users == [Invitation(old(newUser), now, isoNow)] + old(users)
        && newUser == EmptyForm && !isNewUserOpen && searchQuery == old(searchQuery)
      ensures Complete(old(newUser)) ==> PendingCount(users) == PendingCount(old(users)) + 1
    {
      if !Complete(newUser) {
        return;
      }
      var user := Invitation(newUser, now, isoNow);
      Seqs.FilterConcat([user], users, (u: Member) => u.status == Pendente);
      users := [user] + users;
      newUser := EmptyForm;
      isNewUserOpen := false;
    }

    method ToggleUserStatus(id: string)
      modifies this`users
      ensures users == ToggleStatus(old(users), id)
    {
      users := ToggleStatus(users, id);
    }

    method Delete(id: string)
      modifies this`users
      ensures users == DeleteUser(old(users), id)
    {
      users := DeleteUser(users, id);
    }
  }
}
