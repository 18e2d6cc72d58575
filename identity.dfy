// Item-group identity resolution (domain/activation_policy/identity.py).
module Identity {
  import opened Wrappers
  import opened Common
  import opened ActivationModels

  /** Linkcode if non-empty, else gtin if non-empty, else nothing. */
  function ResolveItemGroupId(linkcode: Option<string>, gtin: Option<string>): (r: Option<string>)
    ensures Truthy(linkcode) ==> r == linkcode
    ensures !Truthy(linkcode) && Truthy(gtin) ==> r == gtin
    ensures r.None? <==> !Truthy(linkcode) && !Truthy(gtin)
    ensures r.Some? ==> r.value != "" && (r == linkcode || r == gtin)
  {
    if Truthy(linkcode) then linkcode
    else if Truthy(gtin) then gtin
    else None
  }

  /** The `ValueError` raised when no identifier resolves. */
  datatype IdentityError = CannotResolveItemGroupId

  /**
   * Builds an item, preferring an explicit non-empty `itemGroupId` over
   * resolution; fails exactly when neither yields a non-empty id.
   */
  function BuildActivationItem(
    itemGroupId: Option<string>,
    linkcode: Option<string>,
    gtin: Option<string>,
    category: Option<string>,
    score: real,
    metadata: Option<Fields>): (r: Result<ActivationItem, IdentityError>)
    ensures r.Err? <==> !Truthy(itemGroupId) && !Truthy(linkcode) && !Truthy(gtin)
    ensures r.Ok? ==> r.value.itemGroupId != ""
    ensures r.Ok? && Truthy(itemGroupId) ==> r.value.itemGroupId == itemGroupId.value
    ensures r.Ok? && !Truthy(itemGroupId) ==> Some(r.value.itemGroupId) == ResolveItemGroupId(linkcode, gtin)
    ensures r.Ok? ==> r.value.gtin == gtin && r.value.linkcode == linkcode
                      && r.value.category == category && r.value.score == score
    ensures r.Ok? ==> r.value.metadata == metadata.GetOr(map[])
  {
    var resolved := if Truthy(itemGroupId) then itemGroupId else ResolveItemGroupId(linkcode, gtin);
    if !Truthy(resolved) then Err(CannotResolveItemGroupId)
    else Ok(ActivationItem(resolved.value, gtin, linkcode, category, score, metadata.GetOr(map[])))
  }

  /** Building from the identifiers an item already carries gives that item back. */
  lemma RebuildFromIdentity(item: ActivationItem)
    requires item.itemGroupId != ""
    ensures BuildActivationItem(Some(item.itemGroupId), item.linkcode, item.gtin, item.category,
                                item.score, Some(item.metadata)) == Ok(item)
  {
  }
}
