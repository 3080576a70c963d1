/**
 * The backend's records as the views receive them. Prices are held in
 * integer cents.
 */
module Catalog {

  import opened Support

  datatype Restaurant = Restaurant(id: string, name: string, address: string, cuisine: string, imageUrl: string)

  /**
   * A menu item; `restaurantId` is the owning restaurant's identifier when the
   * record carries one. The cart reads it as `menuItem.restaurant`, a plain id
   * in cart lines, and the item page as `item.restaurant._id`, a populated
   * restaurant on the item endpoint.
   */
  datatype MenuItem = MenuItem(
    id: string, name: string, description: string, price: int, imageUrl: string,
    restaurantId: Option<string>)

  /** A review; `authorId` is `review.user?._id`. */
  datatype Review = Review(id: string, authorId: Option<string>, rating: int, comment: string)

  /** A line of the server's cart: the populated menu item, its unit price and quantity. */
  datatype CartItem = CartItem(id: string, menuItem: MenuItem, price: int, quantity: int)

  /** The server's cart: its line items and `total`, the subtotal the server computed. */
  datatype CartData = CartData(items: seq<CartItem>, total: int)
}
