/** The records the pipeline passes around: layer declarations, the parcel features
    of the master index, the sample features used for schema diffs and the loaded
    feature collections. Geometry and identity fields are opaque to the pipeline and
    are not represented. */
module Records {
  import opened JsValues

  /** `layer.dataType`; any other string is kept as it is. */
  datatype DataType = Category | Range | OtherType(name: string)

  /** The declaration part of a layer: what diffs compare and what binning reads. */
  datatype LayerDecl = LayerDecl(key: string, name: string, dataType: DataType)

  /** A parcel feature of the master index: `fields` are the feature object's own
      scalar fields (what `parcel[layer.key]` and `parcel.parcelNum` read) and
      `properties` the record that merges replace. */
  datatype IndexFeature = IndexFeature(fields: Props, properties: Props)

  /** A feature as `diffFeatureProperties` sees it: `Object.keys(feature.properties)`,
      or `None` when `properties` is missing. */
  datatype Feature = Feature(propertyKeys: Option<seq<string>>)

  /** A feature collection as loaded from disk: its id, features and layers. */
  datatype Collection = Collection(id: string, features: seq<Feature>, layers: seq<LayerDecl>)

  /** `collection.features[0]`, `undefined` on an empty collection. */
  function FirstFeature(c: Collection): Option<Feature>
  {
    if |c.features| > 0 then Some(c.features[0]) else None
  }

  /** One entry of `missingFileRecords` (map/update.js line 258): a required file
      and the directories it was looked for in. */
  datatype Missing = Missing(file: string, checkedPaths: seq<string>)
}
