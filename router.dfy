/** A core's router (src/router.rs). */
module Router {
  import opened Types

  class Router {
    /** The id of the owning core. It is not part of the XML: the decoder leaves it at its
        default and the construction pipeline overwrites it. */
    var id: u8
    /** The router's free-form XML attributes, by name. The source has no setter for them. */
    const otherAttributes: Option<Attributes>

    /** `Router::new`. */
    constructor (id: u8, otherAttributes: Option<Attributes>)
      ensures Id() == id && OtherAttributes() == otherAttributes
    {
      this.id := id;
      this.otherAttributes := otherAttributes;
    }

    /** The router as the XML decoder builds it: the skipped `id` takes `u8`'s default. */
    constructor Decoded(otherAttributes: Option<Attributes>)
      ensures Id() == 0 && OtherAttributes() == otherAttributes
    {
      this.id := 0;
      this.otherAttributes := otherAttributes;
    }

    /** `WithID::id`. */
    function Id(): u8
      reads this
    {
      id
    }

    /** `WithXMLAttributes::other_attributes`. */
    function OtherAttributes(): Option<Attributes> {
      otherAttributes
    }

    /** `WithXMLAttributes::variant`: the tag the front end uses for routers. */
    function Variant(): string {
      "r"
    }

    /** The generated `set_id` setter. `otherAttributes` is immutable, so only `id` changes. */
    method SetId(id: u8)
      modifies this
      ensures Id() == id
    {
      this.id := id;
    }
  }
}
