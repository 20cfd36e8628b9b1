/** The DataZone catalog as the extractor sees it: the answers of `list_projects`,
    `list_subscriptions`, `get_subscription`, `get_asset`, `get_asset_filter`,
    `get_subscription_request_details` and `get_user_profile`, given as data.
    A lookup whose key is absent stands for the service answering with an error
    (botocore's ClientError). */
module Catalog {
  import opened Common
  import opened KeyPath

  /** A `createdAt` / `updatedAt` datetime; only its formatted text reaches a row. */
  datatype Timestamp = Timestamp(epochSeconds: int)

  /** An item of a `list_projects` page. */
  datatype ProjectSummary = ProjectSummary(id: string, name: string, attributes: map<string, Value>)

  /** The answer of `get_subscription`. `assetScope` holds the scope's
      `filterIds` when the asset listing carries an `assetScope`. */
  datatype SubscriptionDetail = SubscriptionDetail(
    id: string,
    listingName: string,
    assetId: string,
    assetScope: Option<seq<string>>,
    subscriberProject: string,
    status: string,
    requestId: string,
    createdAt: Timestamp,
    updatedAt: Timestamp,
    updatedBy: string)

  /** The answer of `get_asset`. */
  datatype AssetDetail = AssetDetail(externalIdentifier: string)

  /** The answer of `get_asset_filter`; both effective fields are optional keys. */
  datatype AssetFilter = AssetFilter(
    name: string,
    effectiveColumnNames: Option<seq<string>>,
    effectiveRowFilter: Option<Value>)

  /** The answer of `get_user_profile`: only IAM users have `details.iam.arn`. */
  datatype UserProfile = IamUser(arn: string) | SsoUser(username: string)

  datatype Catalog = Catalog(
    projectPages: seq<seq<ProjectSummary>>,
    subscriptionPages: map<string, seq<seq<string>>>, // approver project id -> pages of subscription ids
    subscriptions: map<string, SubscriptionDetail>,
    assets: map<string, AssetDetail>,
    filters: map<(string, string), AssetFilter>,       // (asset id, filter id) -> filter
    requests: map<string, string>,                     // subscription request id -> createdBy user id
    users: map<string, UserProfile>)

  /** `get_user_profile(userIdentifier=u)['details']['iam']['arn']`. */
  function IamArn(cat: Catalog, userId: string): (r: PyResult<string>)
    ensures r.Returned? <==> userId in cat.users && cat.users[userId].IamUser?
    ensures r.Returned? ==> r.value == cat.users[userId].arn
    ensures userId !in cat.users ==> r == Raised(ClientError("GetUserProfile"))
    ensures userId in cat.users && cat.users[userId].SsoUser? ==> r == Raised(KeyError("iam"))
  {
    if userId !in cat.users then Raised(ClientError("GetUserProfile"))
    else match cat.users[userId]
      case IamUser(arn) => Returned(arn)
      case SsoUser(_) => Raised(KeyError("iam"))
  }

  /** The key path probed for a restricted access scope. */
  const ScopePath: seq<string> := ["subscribedListing", "item", "assetListing", "assetScope"]

  function IdList(ids: seq<string>): Value {
    List(seq(|ids|, k requires 0 <= k < |ids| => Str(ids[k])))
  }

  /** The `assetListing` object of a subscription's listing item. */
  function AssetListingDocument(d: SubscriptionDetail): Value {
    match d.assetScope
    case None => Dict(map["entityId" := Str(d.assetId)])
    case Some(ids) =>
      Dict(map["entityId" := Str(d.assetId), "assetScope" := Dict(map["filterIds" := IdList(ids)])])
  }

  /** The `get_subscription` answer as the nested dictionary the handler probes
      (the datetime fields are left out: they are not JSON-like values). */
  function Document(d: SubscriptionDetail): Value {
    Dict(map[
      "id" := Str(d.id),
      "status" := Str(d.status),
      "subscriptionRequestId" := Str(d.requestId),
      "updatedBy" := Str(d.updatedBy),
      "subscribedPrincipal" := Dict(map["project" := Dict(map["name" := Str(d.subscriberProject)])]),
      "subscribedListing" := Dict(map[
        "name" := Str(d.listingName),
        "item" := Dict(map["assetListing" := AssetListingDocument(d)])])])
  }

  /** Probing the scope path of a subscription document finds the scope exactly
      when the listing carries one, and otherwise misses the last key,
      `assetScope`: the first three keys are always present. */
  lemma ScopeProbe(d: SubscriptionDetail)
    ensures Walk(Document(d), ScopePath).Reached? <==> d.assetScope.Some?
    ensures d.assetScope.None? ==> Walk(Document(d), ScopePath) == MissingKey(3)
  {
    var listing := Dict(map[
      "name" := Str(d.listingName),
      "item" := Dict(map["assetListing" := AssetListingDocument(d)])]);
    var item := Dict(map["assetListing" := AssetListingDocument(d)]);
    assert Document(d).fields["subscribedListing"] == listing;
    assert ScopePath[1..] == ["item", "assetListing", "assetScope"];
    assert ScopePath[1..][1..] == ["assetListing", "assetScope"];
    assert ScopePath[1..][1..][1..] == ["assetScope"];
    WalkOne(AssetListingDocument(d), "assetScope");
    assert Walk(item, ["assetListing", "assetScope"]) ==
      ShiftBy(Walk(AssetListingDocument(d), ["assetScope"]), 1);
    assert Walk(listing, ["item", "assetListing", "assetScope"]) ==
      ShiftBy(Walk(item, ["assetListing", "assetScope"]), 1);
  }
}
