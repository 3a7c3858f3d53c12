/** The device's key-value store, one field per key the app uses. A missing key is
    `None`. Settings are kept as the text they were saved as; the user, the item list
    and the bill list are kept as the values their JSON text stands for. */
module KeyValue {
  import opened Base
  import opened Records

  class KeyValueStore {
    /** `KiranaKart_User` */
    var user: Option<User>
    /** `KiranaKart_Theme` */
    var theme: Option<string>
    /** `KiranaKart_FontSize` */
    var fontSize: Option<string>
    /** `KiranaKart_MinQuantity` */
    var minQuantity: Option<string>
    /** `KiranaKart_Items` */
    var items: Option<seq<Item>>
    /** `@bills` */
    var bills: Option<seq<Bill>>

    predicate Empty()
      reads this
    {
      user == None && theme == None && fontSize == None && minQuantity == None
      && items == None && bills == None
    }

    /** A freshly installed app: no key is set. */
    constructor()
      ensures Empty()
    {
      user, theme, fontSize, minQuantity := None, None, None, None;
      items, bills := None, None;
    }
  }
}
