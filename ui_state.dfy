/** The presentation-level values: the screen state and the collapsible sections. */
module UiModels {
  import opened DeviceInfoModel

  /** Exactly one of: loading, a full snapshot, or an error message. */
  datatype UiState = Loading | Success(deviceInfo: DeviceInfo) | Error(message: string)

  /** A titled group of label/value lines; collapsed unless built with `isExpanded := true`. */
  datatype DeviceInfoSection = DeviceInfoSection(
    title: string, items: seq<DeviceInfoItem>, isExpanded: bool := false)

  /** `text` is the Kotlin field `label` (a reserved word in Dafny). */
  datatype DeviceInfoItem = DeviceInfoItem(text: string, value: string)

  /**
   * The constructors keep what they are given: label and value, title and
   * items in order, an explicit flag; and a section built without a flag
   * is collapsed.
   */
  lemma ConstructorsKeepFields(labelText: string, value: string, title: string,
                               items: seq<DeviceInfoItem>, expanded: bool)
    ensures DeviceInfoItem(labelText, value).text == labelText
    ensures DeviceInfoItem(labelText, value).value == value
    ensures DeviceInfoSection(title, items, expanded).title == title
    ensures DeviceInfoSection(title, items, expanded).items == items
    ensures DeviceInfoSection(title, items, expanded).isExpanded == expanded
    ensures !DeviceInfoSection(title, items).isExpanded
  {
  }
}
