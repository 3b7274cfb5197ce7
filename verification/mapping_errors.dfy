/** The exceptions the command mappers can raise. */
module MappingErrors {

  datatype MappingError =
      /** `ValidationUtil.NotNull` refused a null command. */
    | NullArgument
      /** `InvalidArgumentException(name, actual value, expected description)`. */
    | InvalidArgument(argumentName: string, actualValue: string, expected: string)
      /** A member of a null command was read without a null check. */
    | NullReference
}
