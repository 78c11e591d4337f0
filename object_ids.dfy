/** ObjectIds as text. A route parameter or a request body carries an id as the 24
    hexadecimal digits the client typed, in either case; `ObjectId.toString()` renders the
    lower-case digits. Elsewhere the model treats ids as values (`Base.Id`), which is the
    comparison `ObjectId.equals` makes; this module shows where the services compare the
    texts instead. */
module ObjectIds {
  import opened Base
  import opened Errors
  import opened Seqs
  import opened Text

  predicate IsHexChar(c: char) { IsDigit(c) || 'a' <= c <= 'f' || 'A' <= c <= 'F' }

  /** `isMongoId()`: twenty-four hexadecimal digits of either case. */
  predicate IsMongoId(s: string) {
    |s| == 24 && forall i :: 0 <= i < |s| ==> IsHexChar(s[i])
  }

  /** The text `toString()` renders for the id `new Types.ObjectId(s)`. */
  function Rendered(s: string): (r: string)
    requires IsMongoId(s)
    ensures IsMongoId(r)
    ensures forall i :: 0 <= i < |r| ==> !IsUpper(r[i])
    ensures forall i :: 0 <= i < |s| && !IsUpper(s[i]) ==> r[i] == s[i]
  {
    ToLower(s)
  }

  /** Rendering an id that is already rendered gives it back. */
  lemma RenderedIdempotent(s: string)
    requires IsMongoId(s)
    ensures Rendered(Rendered(s)) == Rendered(s)
  {
    var r := Rendered(s);
    assert forall i :: 0 <= i < |r| ==> Rendered(r)[i] == r[i];
  }

  /** `a.equals(b)` on the ids the two texts denote. */
  predicate SameId(a: string, b: string)
    requires IsMongoId(a) && IsMongoId(b)
  {
    Rendered(a) == Rendered(b)
  }

  /** An id as the client sent it, and the same id as the server renders it. */
  const TypedId: string := seq(24, i => 'A')
  const StoredId: string := seq(24, i => 'a')

  /** The upper-case spelling passes `isMongoId()`, differs from the rendered text and
      denotes the same id. */
  lemma UpperCaseSpelling()
    ensures IsMongoId(TypedId) && IsMongoId(StoredId)
    ensures TypedId != StoredId
    ensures Rendered(TypedId) == StoredId && Rendered(StoredId) == StoredId
    ensures SameId(TypedId, StoredId)
  {
    assert TypedId[0] != StoredId[0];
    assert forall i :: 0 <= i < 24 ==> Rendered(TypedId)[i] == StoredId[i];
    assert forall i :: 0 <= i < 24 ==> Rendered(StoredId)[i] == StoredId[i];
  }

  // ----- removerMembro -----

  /** `removerMembro(forumId, usuarioId)` as written: the creator's rendered id is compared
      with the parameter as typed, then the members equal to the parameter's id are filtered
      out. `criador` and `membros` are rendered ids. */
  function RemoverMembroAsWritten(criador: string, membros: seq<string>, usuarioId: string): (r: Result<seq<string>, Error>)
    requires IsMongoId(usuarioId)
    ensures r.Err? ==> r.error == CannotRemoveCreator && usuarioId == criador
    ensures r.Ok? ==> Rendered(usuarioId) !in r.value
    ensures r.Ok? ==> forall m :: m in membros && m != Rendered(usuarioId) ==> m in r.value
  {
    if criador == usuarioId then Err(CannotRemoveCreator) else Ok(RemoveAll(membros, Rendered(usuarioId)))
  }

  /** As written, the creator is removed when the parameter spells their id in upper case. */
  lemma CreatorRemovedAsWritten(criador: string, membros: seq<string>, usuarioId: string)
    requires IsMongoId(usuarioId) && Rendered(usuarioId) == criador && usuarioId != criador
    ensures RemoverMembroAsWritten(criador, membros, usuarioId).Ok?
    ensures criador !in RemoverMembroAsWritten(criador, membros, usuarioId).value
  {
  }

  /** The forum whose only member is its creator `StoredId` loses them for `TypedId`. */
  lemma CreatorRemovedExample()
    ensures RemoverMembroAsWritten(StoredId, [StoredId], TypedId) == Ok([])
  {
    UpperCaseSpelling();
    assert RemoveAll([StoredId], StoredId) == [] + RemoveAll([StoredId][1..], StoredId);
  }

  /** `removerMembro` comparing ids: the parameter is rendered before the comparison. */
  function RemoverMembroCorrected(criador: string, membros: seq<string>, usuarioId: string): (r: Result<seq<string>, Error>)
    requires IsMongoId(criador) && Rendered(criador) == criador && IsMongoId(usuarioId)
    ensures r.Err? <==> SameId(criador, usuarioId)
    ensures r.Err? ==> r.error == CannotRemoveCreator
    ensures r.Ok? ==> Rendered(usuarioId) !in r.value
    ensures r.Ok? ==> forall m :: m in membros && m != Rendered(usuarioId) ==> m in r.value
  {
    if criador == Rendered(usuarioId) then Err(CannotRemoveCreator) else Ok(RemoveAll(membros, Rendered(usuarioId)))
  }

  /** Corrected, the creator stays a member whatever spelling the parameter uses. */
  lemma CreatorNeverRemoved(criador: string, membros: seq<string>, usuarioId: string)
    requires IsMongoId(criador) && Rendered(criador) == criador && IsMongoId(usuarioId)
    requires criador in membros
    ensures RemoverMembroCorrected(criador, membros, usuarioId).Ok? ==>
              criador in RemoverMembroCorrected(criador, membros, usuarioId).value
    ensures forall u :: IsMongoId(u) && Rendered(u) == criador ==>
              RemoverMembroCorrected(criador, membros, u) == Err(CannotRemoveCreator)
  {
  }

  // ----- criarFeedbackP2P -----

  /** The self-feedback guard of `criarFeedbackP2P` as written: the recipient's text as
      typed is compared with the sender's rendered id `req.user._id.toString()`. */
  function SelfFeedbackGuardAsWritten(destinatarioId: string, usuarioId: string): (r: Option<Error>)
    requires IsMongoId(destinatarioId)
    ensures r.Some? ==> r.value == SelfFeedback && destinatarioId == usuarioId
  {
    if destinatarioId == usuarioId then Some(SelfFeedback) else None
  }

  /** As written, a sender who spells their own id in upper case passes the guard, and the
      stored recipient `new Types.ObjectId(destinatario_id)` is the sender. */
  lemma SelfFeedbackAcceptedAsWritten(destinatarioId: string, usuarioId: string)
    requires IsMongoId(destinatarioId) && IsMongoId(usuarioId) && Rendered(usuarioId) == usuarioId
    requires Rendered(destinatarioId) == usuarioId && destinatarioId != usuarioId
    ensures SelfFeedbackGuardAsWritten(destinatarioId, usuarioId).None?
    ensures SameId(destinatarioId, usuarioId)
  {
  }

  lemma SelfFeedbackExample()
    ensures SelfFeedbackGuardAsWritten(TypedId, StoredId).None? && SameId(TypedId, StoredId)
  {
    UpperCaseSpelling();
  }

  /** The guard comparing ids. */
  function SelfFeedbackGuardCorrected(destinatarioId: string, usuarioId: string): (r: Option<Error>)
    requires IsMongoId(destinatarioId) && IsMongoId(usuarioId) && Rendered(usuarioId) == usuarioId
    ensures r.Some? <==> SameId(destinatarioId, usuarioId)
    ensures r.Some? ==> r.value == SelfFeedback
  {
    if Rendered(destinatarioId) == usuarioId then Some(SelfFeedback) else None
  }

  /** Corrected, every spelling of the sender's own id is refused. */
  lemma SelfFeedbackAlwaysRefused(usuarioId: string)
    requires IsMongoId(usuarioId) && Rendered(usuarioId) == usuarioId
    ensures forall d :: IsMongoId(d) && Rendered(d) == usuarioId ==>
              SelfFeedbackGuardCorrected(d, usuarioId) == Some(SelfFeedback)
    ensures SelfFeedbackGuardCorrected(TypedId, StoredId) == Some(SelfFeedback)
  {
    UpperCaseSpelling();
  }
}
