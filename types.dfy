/** Entities shared by the client state container, the pages and the backend model. */
module Types {

  datatype Option<+T> = None | Some(value: T)

  datatype Result<+T, +E> = Ok(value: T) | Err(error: E)

  /** The three account kinds of `User.type`. */
  datatype Role = Consumer | Photographer | Admin

  /** The session identity held by the client state container. */
  datatype User = User(id: string, name: string, email: string, avatar: string, role: Role)

  /** What a caller hands to `addToCart`: a cart line without its id. */
  datatype NewCartItem = NewCartItem(photoId: string, eventId: string, eventName: string, price: real, image: string)

  /** One cart line. The id stands for the string `cart-<time>-<random>`; it is drawn from a counter. */
  datatype CartItem = CartItem(id: nat, photoId: string, eventId: string, eventName: string, price: real, image: string)

  /** An event of the catalogue (the counters shown on cards are display only and left out). */
  datatype Event = Event(id: string, name: string, location: string, date: string,
                         photographer: string, category: string, image: string)

  /** A photo of the catalogue or of the face-search result; `hasUser` false stands for undefined. */
  datatype Photo = Photo(id: string, eventId: string, image: string, price: real,
                         hasUser: bool, confidence: Option<real>, number: Option<int>)

  /** The three toast styles. */
  datatype ToastKind = Success | Error | Info
}
