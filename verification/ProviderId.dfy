/** Provider IDs: the text by which the two controllers recognise an instance. */
module ProviderId {
  import opened Basics

  datatype ParseError = EmptyProviderId | MissingPrefix | InvalidUuid

  const PREFIX: string := "oxide://"

  function NewProviderID(instanceId: string): string {
    PREFIX + instanceId
  }

  /** `uuidAccepts` is the verdict of the UUID library, which is not part of this model. */
  function InstanceIDFromProviderID(uuidAccepts: string -> bool, providerId: string): Result<string, ParseError> {
    if providerId == "" then Failure(EmptyProviderId)
    else if !(PREFIX <= providerId) then Failure(MissingPrefix)
    else if !uuidAccepts(providerId[|PREFIX|..]) then Failure(InvalidUuid)
    else Success(providerId[|PREFIX|..])
  }

  /** Parsing returns an id exactly for the text that printing that id gives, and then only
      for ids the UUID library accepts: each function inverts the other. */
  lemma ParseInvertsPrint(uuidAccepts: string -> bool, providerId: string, id: string)
    ensures InstanceIDFromProviderID(uuidAccepts, providerId) == Success(id)
            <==> providerId == "oxide://" + id && uuidAccepts(id)
    ensures NewProviderID(id) == "oxide://" + id
  {
    assert NewProviderID(id)[|PREFIX|..] == id;
    if PREFIX <= providerId {
      assert providerId == PREFIX + providerId[|PREFIX|..];
    }
  }

  /** Why a provider ID is refused. */
  lemma RefusalIsExplained(uuidAccepts: string -> bool, providerId: string)
    ensures InstanceIDFromProviderID(uuidAccepts, "") == Failure(EmptyProviderId)
    ensures InstanceIDFromProviderID(uuidAccepts, providerId) == Failure(MissingPrefix) <==>
            providerId != "" && !("oxide://" <= providerId)
    ensures InstanceIDFromProviderID(uuidAccepts, providerId) == Failure(InvalidUuid) <==>
            "oxide://" <= providerId && !uuidAccepts(providerId[8..])
  {
  }

  lemma PrintIsInjective(id: string, other: string)
    ensures NewProviderID(id) != ""
    ensures NewProviderID(id) == NewProviderID(other) ==> id == other
  {
    assert NewProviderID(id)[|PREFIX|..] == id;
    assert NewProviderID(other)[|PREFIX|..] == other;
  }

  /** The holder scan compares ids as text: a machine that recorded instance `mine` matches a
      holder exactly when the holder is `mine`. */
  lemma HolderMatchIsIdEquality(uuidAccepts: string -> bool, mine: string, holder: string)
    requires uuidAccepts(mine)
    ensures InstanceIDFromProviderID(uuidAccepts, NewProviderID(mine)) == Success(holder) <==> mine == holder
  {
    ParseInvertsPrint(uuidAccepts, NewProviderID(mine), holder);
    PrintIsInjective(mine, holder);
  }
}
