/** The API-view endpoint's transform (app/api/factory-api/route.ts): a
    pure map from asset records to the records the API view lists. */
module ApiViewRoute {
  import opened Js
  import opened FactoryService

  datatype ApiAsset = ApiAsset(
    id: Field,
    name: string,
    kind: string,
    parent_id: Field,
    status: string,
    description: string,
    code: Field,
    assetData: Asset)

  /** One record: `name` and `description` fall back to text built from the
      raw fields, where a null field renders as "null" and a missing one
      as "undefined". */
  function ApiAssetFor(a: Asset): (r: ApiAsset)
    ensures r.id == a.asset_id && r.parent_id == a.parent_id && r.code == a.code && r.assetData == a
    ensures r.name == (if a.name.Truthy() then a.name.text else "Asset " + a.asset_id.Show())
    ensures r.kind == (if a.kind.Truthy() then a.kind.text else "workstation")
    ensures r.status == (if a.status.Truthy() then a.status.text else "active")
    ensures r.description == (if a.description.Truthy() then a.description.text
                              else a.kind.Show() + " " + a.asset_id.Show())
  {
    ApiAsset(a.asset_id, a.name.OrElse("Asset " + a.asset_id.Show()), a.kind.OrElse("workstation"),
             a.parent_id, a.status.OrElse("active"),
             a.description.OrElse(a.kind.Show() + " " + a.asset_id.Show()), a.code, a)
  }

  /** `assets.map(...)` */
  function TransformAssetsForApiView(assets: seq<Asset>): (r: seq<ApiAsset>)
    ensures |r| == |assets|
    ensures forall i :: 0 <= i < |assets| ==> r[i] == ApiAssetFor(assets[i])
  {
    if assets == [] then [] else [ApiAssetFor(assets[0])] + TransformAssetsForApiView(assets[1..])
  }

  /** The description falls back to the raw, untyped `type`: an asset with
      neither a description nor a string type is described as "null <id>"
      when its type is null (as JSON delivers an empty column) and as
      "undefined <id>" when the field is missing, while its `type` reads
      "workstation" either way. */
  lemma {:induction false} UntypedDescription(a: Asset)
    requires !a.description.Truthy() && !a.kind.Str? && a.asset_id.Str?
    ensures ApiAssetFor(a).description == (if a.kind.Null? then "null " else "undefined ") + a.asset_id.text
    ensures ApiAssetFor(a).kind == "workstation"
  {
  }

  /** Each original record can be read back from the record made from it. */
  lemma {:induction false} RecordsKept(assets: seq<Asset>)
    ensures seq(|assets|, i requires 0 <= i < |assets| => TransformAssetsForApiView(assets)[i].assetData) == assets
  {
    var r := TransformAssetsForApiView(assets);
    var back := seq(|assets|, i requires 0 <= i < |assets| => r[i].assetData);
    forall i | 0 <= i < |assets| ensures back[i] == assets[i] {
      assert r[i] == ApiAssetFor(assets[i]);
    }
  }
}
