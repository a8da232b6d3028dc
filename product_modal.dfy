/**
 * The product detail dialog (`components/product-modal.tsx`): the size and
 * colour choices, the quantity stepper that never goes below 1, and the
 * add-to-cart handler that refuses until both a size and a colour are chosen.
 */
module ProductModal {
  import opened Wrappers
  import opened Text
  import opened CartLines
  import opened ProductGrid
  import UseCart

  /** The line `handleAddToCart` passes to `addItem`: the numeric id as a string, the choices and the quantity. */
  function CartLineFor(product: GridProduct, size: string, color: string, quantity: int): (item: CartItem)
    ensures ParseInt(item.id) == Some(product.id)
    ensures item.size == size && item.color == color && item.quantity == quantity as real
    ensures item.name == product.name && item.price == product.price && item.image_url == product.image_url
  {
    ParseIntOfIntToString(product.id);
    CartItem(IntToString(product.id), product.name, product.price, product.image_url, size, color, quantity as real)
  }

  /** Two products land on the same cart line only if they have the same id. */
  lemma CartLineIdsDistinguishProducts(p1: GridProduct, p2: GridProduct, size: string, color: string, q1: int, q2: int)
    requires SameKey(CartLineFor(p1, size, color, q1), CartLineFor(p2, size, color, q2))
    ensures p1.id == p2.id
  {
    assert ParseInt(CartLineFor(p1, size, color, q1).id) == Some(p1.id);
    assert ParseInt(CartLineFor(p2, size, color, q2).id) == Some(p2.id);
  }

  class ProductModal {
    const product: GridProduct
    var selectedSize: string
    var selectedColor: string
    var quantity: int

    /** The stepper never shows less than 1. */
    ghost predicate Valid()
      reads this
    {
      quantity >= 1
    }

    /** Nothing chosen yet, quantity 1. */
    constructor (product: GridProduct)
      ensures this.product == product
      ensures selectedSize == "" && selectedColor == "" && quantity == 1
      ensures Valid()
    {
      this.product := product;
      selectedSize := "";
      selectedColor := "";
      quantity := 1;
    }

    /** `setSelectedSize`. */
    method SelectSize(size: string)
      modifies this
      ensures selectedSize == size && selectedColor == old(selectedColor) && quantity == old(quantity)
    {
      selectedSize := size;
    }

    /** `setSelectedColor`. */
    method SelectColor(color: string)
      modifies this
      ensures selectedColor == color && selectedSize == old(selectedSize) && quantity == old(quantity)
    {
      selectedColor := color;
    }

    /** The minus button: `Math.max(1, quantity - 1)`. */
    method Decrement()
      modifies this
      ensures quantity == if old(quantity) - 1 > 1 then old(quantity) - 1 else 1
      ensures quantity >= 1 && (old(quantity) <= 1 ==> quantity == 1)
      ensures selectedSize == old(selectedSize) && selectedColor == old(selectedColor)
    {
      quantity := if 1 > quantity - 1 then 1 else quantity - 1;
    }

    /** The plus button. */
    method Increment()
      modifies this
      ensures quantity == old(quantity) + 1
      ensures old(Valid()) ==> Valid()
      ensures selectedSize == old(selectedSize) && selectedColor == old(selectedColor)
    {
      quantity := quantity + 1;
    }

    /** `handleAddToCart`: no size or no colour leaves the cart alone; otherwise the line is added. */
    method AddToCart(cart: UseCart.UseCart)
      modifies cart
      ensures selectedSize == "" || selectedColor == "" ==> cart.items == old(cart.items)
      ensures selectedSize != "" && selectedColor != "" ==>
                cart.items == CartLines.AddItem(old(cart.items), CartLineFor(product, selectedSize, selectedColor, quantity))
    {
      if selectedSize == "" || selectedColor == "" {
        return;
      }
      cart.AddItem(CartLineFor(product, selectedSize, selectedColor, quantity));
    }
  }
}
