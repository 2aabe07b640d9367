/** The part of a Rust type's syntax tree the derives look at: a path of
    segments, each with optional generic arguments, or some other shape
    (array, slice, reference, tuple, ...), which they treat as a whole. */
module Syntax {
  import opened Wrappers

  datatype Type =
    | Path(segments: seq<PathSegment>)
    | NonPath(shape: NonPathShape)

  /** Array and slice shapes are kept apart because the type-info table
      gives `[u8; N]` and `[u8]` a storage class; every other non-path
      shape is `Other`. */
  datatype NonPathShape =
    | Array(elem: Type, len: nat)
    | Slice(elem: Type)
    | Other(text: string)

  datatype PathSegment = PathSegment(ident: string, arguments: PathArguments)

  /** `Vec`, `Vec<T, A>` and `Fn(A) -> B` respectively. */
  datatype PathArguments =
    | NoArguments
    | AngleBracketed(args: seq<GenericArgument>)
    | Parenthesized

  /** A type argument, or anything else that can stand between angle
      brackets (a lifetime, a constant, an associated-type binding). */
  datatype GenericArgument = TypeArg(ty: Type) | OtherArg

  /** The thirteen identifiers both derives hand to the database by value. */
  const Primitives: set<string> :=
    {"i8", "i16", "i32", "i64", "isize", "u8", "u16", "u32", "f32", "f64", "u64", "usize", "bool"}

  /** A one-segment path, written without generic arguments. */
  function Simple(ident: string): Type {
    Path([PathSegment(ident, NoArguments)])
  }

  /** A one-segment path with angle-bracketed type arguments, as `Vec<T>`. */
  function Generic(ident: string, args: seq<Type>): Type {
    Path([PathSegment(ident, AngleBracketed(seq(|args|, i requires 0 <= i < |args| => TypeArg(args[i]))))])
  }

  /** `segments.last()` of a path type; `None` for a non-path type. */
  function LastSegment(ty: Type): (r: Option<PathSegment>)
    ensures r.Some? <==> ty.Path? && |ty.segments| > 0
    ensures r.Some? ==> r.value == ty.segments[|ty.segments| - 1]
  {
    if ty.Path? && |ty.segments| > 0 then Some(ty.segments[|ty.segments| - 1]) else None
  }

  /** True when the last segment of a path type is one of `Primitives`. */
  predicate LastIsPrimitive(ty: Type) {
    LastSegment(ty).Some? && LastSegment(ty).value.ident in Primitives
  }

  /** True when the path type has exactly one segment and it is a primitive. */
  predicate IsSinglePrimitive(ty: Type) {
    ty.Path? && |ty.segments| == 1 && ty.segments[0].ident in Primitives
  }
}
