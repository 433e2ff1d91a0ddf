/** The location document the server stores (server.js:49-63) and sends to the
    browser as JSON, where `locais.js` reads the same fields. */
module Records {

  datatype Location = Location(
    id: string,               // `_id`, the card's `data-id`
    src: string,
    title: string,
    description: string,
    typeicon: string,         // one String: the category test is substring containment
    types: seq<string>,       // [String]: the amenity test is membership
    latitude: real,
    longitude: real,
    url: string,
    likes: nat,
    dislikes: nat)

  /** A document created with the schema's defaults for the two counters. */
  function NewLocation(id: string, src: string, title: string, description: string,
                       typeicon: string, types: seq<string>,
                       latitude: real, longitude: real, url: string): (loc: Location)
  {
    Location(id, src, title, description, typeicon, types, latitude, longitude, url, 0, 0)
  }
}
