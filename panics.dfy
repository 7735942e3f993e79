/** The outcome of an operation that can panic. A Rust panic unwinds instead of
    returning; here it is a value, so that every panic the source can raise is a
    case the model states and proves things about. */
module Panics {

  datatype Panic =
    /** `assert!(texels.len() as u32 >= texture.size.area())` in `Texture::fill`. */
    | IncorrectTexelLength
    /** `assert!(destination_size.area() <= texture.size.area())` in `Texture::transfer`. */
    | TransferTooLarge
    /** `assert!(src.area() != dst.area())` in `Texture::blit`. */
    | BlitSizeMismatch
    /** `assert_eq!(binds.len(), layout.size)` in `Device::create_binding_group`. */
    | SlotCountMismatch
    /** `expect` on a device without a surface in `Device::configure`. */
    | NoSurface
    /** `assert!(attributes.len() == 4)` in `ShapeBuilder::new_vertex`. */
    | AttributesNotRgba
    /** Integer division by zero. */
    | DivideByZero
    /** Overflow of a checked (debug build) integer operation. */
    | ArithmeticOverflow

  datatype Result<+T> = Ok(value: T) | Err(panic: Panic)
}
