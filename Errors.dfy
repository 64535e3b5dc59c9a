/** The error kinds the routes answer with. HTTP status codes and the JSON envelope
    are not modelled; each code path that answers with an error maps to one kind. */
module Errors {

  datatype Error =
    | NotFound                    // 404: missing or inactive product, missing cart, cart line or order
    | InsufficientStock           // 400 'Not enough stock available' (cart routes)
    | OutOfStockFor(name: string) // 400 'Not enough stock for <product name>' (checkout)
    | InvalidArgument             // 400: quantity below 1 (route check or the schema's min on save),
                                  // or a negative skip the database refuses
    | EmptyCart                   // 400 'Cart is empty'
    | Forbidden                   // 403: neither the owner nor an admin
}
