/** The user model: roles, the role predicates, the schema defaults and the
    three achievement slots. */
module UsuarioModel {
  import opened Base
  import opened Seqs
  import opened Text

  /** `role`: 'usuario' | 'admin' | 'super_admin'. */
  datatype Role = Usuario | Admin | SuperAdmin

  /** A bcrypt hash, kept symbolic: it records which password it was made from. */
  datatype PasswordHash = Hashed(of: string)

  /** `bcrypt.hash(senha, saltRounds)` with twelve salt rounds. */
  function HashPassword(senha: string): PasswordHash {
    Hashed(senha)
  }

  /** `bcrypt.compare(senha, hash)`. */
  predicate PasswordMatches(senha: string, hash: PasswordHash) {
    hash == HashPassword(senha)
  }

  /** Comparing against a stored hash accepts exactly the password it was made from. */
  lemma PasswordMatchesIff(senha: string, stored: string)
    ensures PasswordMatches(senha, HashPassword(stored)) <==> senha == stored
  {
  }

  /** A stored user document. `conquistas` holds the three achievement slots. */
  datatype UsuarioRecord = UsuarioRecord(
    id: Id,
    nome: string,
    email: string,
    senha: PasswordHash,
    role: Role,
    xp: int,
    conquistas: seq<bool>,
    feedbacksIn: seq<Id>,
    feedbacksOut: seq<Id>,
    dataCriacao: Time)

  /** `isAdmin()`: admins and super admins. */
  predicate IsAdmin(u: UsuarioRecord) {
    u.role == Admin || u.role == SuperAdmin
  }

  /** `isSuperAdmin()`. */
  predicate IsSuperAdmin(u: UsuarioRecord) {
    u.role == SuperAdmin
  }

  lemma SuperAdminIsAdmin(u: UsuarioRecord)
    ensures IsSuperAdmin(u) ==> IsAdmin(u)
    ensures IsAdmin(u) <==> u.role in {Admin, SuperAdmin}
    ensures IsAdmin(u) && !IsSuperAdmin(u) <==> u.role == Admin
  {
  }

  /** The number of achievement slots. */
  const AchievementSlots: nat := 3

  /** Three achievements, none earned yet. */
  function DefaultConquistas(): (c: seq<bool>)
    ensures |c| == AchievementSlots
    ensures forall i :: 0 <= i < |c| ==> !c[i]
  {
    [false, false, false]
  }

  /** The e-mail as stored and as looked up: the schema lower-cases it. */
  function NormalizeEmail(email: string): (r: string)
    ensures |r| == |email|
    ensures ToLower(r) == r
  {
    ToLower(email)
  }

  // ----- The schema validators -----

  const MinUsuarioNomeLength: nat := 5
  const MaxUsuarioNomeLength: nat := 25

  /** `nome`: required, trimmed, 5 to 25 characters. The value checked is the trimmed one. */
  predicate NomeValid(nome: string) {
    MinUsuarioNomeLength <= |nome| <= MaxUsuarioNomeLength
  }

  predicate IsLocalChar(c: char) { IsAlnum(c) || c == '.' || c == '_' || c == '%' || c == '+' || c == '-' }
  predicate IsDomainChar(c: char) { IsAlnum(c) || c == '.' || c == '-' }
  predicate IsLetter(c: char) { IsUpper(c) || IsLower(c) }

  predicate AllChars(s: string, p: char -> bool) {
    forall i :: 0 <= i < |s| ==> p(s[i])
  }

  /** The e-mail pattern `^[a-zA-Z0-9._%+-]+@[a-zA-Z0-9.-]+\.[a-zA-Z]{2,}$` matched with
      the `@` at `at` and the final dot at `dot`. */
  predicate EmailSplit(s: string, at: nat, dot: nat) {
    && 0 < at && at + 1 < dot && dot + 2 < |s|
    && s[at] == '@' && s[dot] == '.'
    && AllChars(s[..at], IsLocalChar)
    && AllChars(s[at + 1..dot], IsDomainChar)
    && AllChars(s[dot + 1..], IsLetter)
  }

  /** What the regular expression accepts: some way of splitting the address. */
  ghost predicate MatchesEmailPattern(s: string) {
    exists at: nat, dot: nat :: EmailSplit(s, at, dot)
  }

  /** The matcher: the local part ends at the first `@` and the top-level domain starts
      after the last dot. */
  predicate EmailValid(s: string) {
    && '@' in s
    && var at := IndexOf(s, '@');
       && '.' in s[at + 1..]
       && EmailSplit(s, at, at + 1 + LastIndexOf(s[at + 1..], '.'))
  }

  /** The matcher accepts exactly the addresses the pattern describes: neither part before
      the top-level domain may hold an `@`, and the top-level domain holds no dot. */
  lemma EmailValidIff(s: string)
    ensures EmailValid(s) <==> MatchesEmailPattern(s)
  {
    if EmailValid(s) {
      ValidMatches(s);
    }
    if MatchesEmailPattern(s) {
      var at: nat, dot: nat :| EmailSplit(s, at, dot);
      SplitIsValid(s, at, dot);
    }
  }

  lemma ValidMatches(s: string)
    requires EmailValid(s)
    ensures MatchesEmailPattern(s)
  {
    var at := IndexOf(s, '@');
    var dot := at + 1 + LastIndexOf(s[at + 1..], '.');
    assert EmailSplit(s, at, dot);
  }

  lemma SplitIsValid(s: string, at: nat, dot: nat)
    requires EmailSplit(s, at, dot)
    ensures EmailValid(s)
  {
    SplitAtFirstAt(s, at, dot);
    SplitAtLastDot(s, at, dot);
  }

  /** No local-part character is an `@`, so a split's `@` is the first one. */
  lemma SplitAtFirstAt(s: string, at: nat, dot: nat)
    requires EmailSplit(s, at, dot)
    ensures '@' in s && IndexOf(s, '@') == at
  {
    assert s[at] == '@';
  }

  /** No letter is a dot, so a split's dot is the last one in the domain. */
  lemma SplitAtLastDot(s: string, at: nat, dot: nat)
    requires EmailSplit(s, at, dot)
    ensures '.' in s[at + 1..] && at + 1 + LastIndexOf(s[at + 1..], '.') == dot
  {
    var rest := s[at + 1..];
    assert rest[dot - at - 1] == '.';
  }

  /** `nome` then `email` as the schema checks them, and `xp` with its minimum of 0. */
  predicate UsuarioFieldsValid(nome: string, email: string, xp: int) {
    NomeValid(nome) && EmailValid(email) && xp >= 0
  }

  /** A new user document: the schema's defaults fill what the caller left out. */
  function NewUsuario(id: Id, nome: string, email: string, senha: PasswordHash,
                      role: Option<Role>, now: Time): (u: UsuarioRecord)
    ensures u.id == id && u.senha == senha && u.dataCriacao == now
    ensures u.email == NormalizeEmail(email) && u.nome == Trim(nome)
    ensures role.None? ==> u.role == Usuario && !IsAdmin(u)
    ensures role.Some? ==> u.role == role.value
    ensures u.xp == 0 && u.conquistas == DefaultConquistas()
    ensures u.feedbacksIn == [] && u.feedbacksOut == []
  {
    UsuarioRecord(id, Trim(nome), NormalizeEmail(email), senha,
                  if role.Some? then role.value else Usuario,
                  0, DefaultConquistas(), [], [], now)
  }

  /** Setting one achievement slot in the three-slot list. */
  function SetConquista(c: seq<bool>, i: nat, valor: bool): (r: seq<bool>)
    requires i < |c|
    ensures |r| == |c| && r[i] == valor
    ensures forall j :: 0 <= j < |c| && j != i ==> r[j] == c[j]
  {
    c[i := valor]
  }

  // ----- The achievement array as the schema declares it -----

  /** One element of a stored array: `null` where MongoDB padded a gap. */
  type Slot = Option<bool>

  /** An array path declared with element schemas has the default `[]`: Mongoose casts
      every element with the first declaration and gives the array itself no default
      elements, so a new user's `conquistas` is empty. */
  function DefaultConquistasAsWritten(): (c: seq<Slot>)
    ensures |c| == 0
  {
    []
  }

  /** `$set: { 'conquistas.i': v }` on a stored array: a position past the end
      extends the array, padding the gap with `null`. */
  function SetSlotAsWritten(c: seq<Slot>, i: nat, valor: bool): (r: seq<Slot>)
    ensures |r| == if i < |c| then |c| else i + 1
    ensures r[i] == Some(valor)
    ensures forall j :: 0 <= j < |c| && j != i ==> r[j] == c[j]
    ensures forall j :: |c| <= j < i ==> r[j] == None
  {
    if i < |c| then c[i := Some(valor)]
    else c + seq(i - |c|, _ => None) + [Some(valor)]
  }

  /** A new user as written has no achievement slot at all, and earning the second
      achievement leaves a `null` first slot and no third slot. */
  lemma ConquistasAsWrittenDiffer()
    ensures DefaultConquistasAsWritten() != seq(AchievementSlots, _ => Some(false))
    ensures SetSlotAsWritten(DefaultConquistasAsWritten(), 1, true) == [None, Some(true)]
  {
    assert |seq(AchievementSlots, _ => Some(false))| == 3;
  }

  /** With three default slots, setting one keeps three slots and changes only that one. */
  lemma ConquistasCorrected(i: nat, valor: bool)
    requires i < AchievementSlots
    ensures |SetConquista(DefaultConquistas(), i, valor)| == AchievementSlots
    ensures forall j :: 0 <= j < AchievementSlots ==>
              SetConquista(DefaultConquistas(), i, valor)[j] == (j == i && valor)
  {
  }
}
