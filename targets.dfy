/**
 * The `find` result record (AttributeTarget). The live reflection handle of
 * the original is replaced by a site tag that keeps the immutable facts a
 * caller can walk back to: which kind of site, and the names that locate it.
 */
module Targets {

  datatype Site =
    | ClassSite(className: string)
    | MethodSite(methodName: string)
    | ParameterSite(methodName: string, parameterName: string)
    | PropertySite(property: string)
    | ConstantSite(constant: string)

  /** The name a record carries for its site; a parameter is named `<method>.<parameter>`. */
  function DisplayName(site: Site): string
  {
    match site
    case ClassSite(c) => c
    case MethodSite(m) => m
    case ParameterSite(m, p) => m + "." + p
    case PropertySite(p) => p
    case ConstantSite(k) => k
  }

  /** A matched attribute, the site it came from, and that site's display name. */
  datatype AttributeTarget<+A> = AttributeTarget(attribute: A, target: Site, name: string)

}
