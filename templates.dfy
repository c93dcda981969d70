/** The three envelope templates, parsed once and never changed: the object
    wrapper (fields name, kind, content), the package header and the package
    footer (field name). Their text is not part of this model, so each is an
    arbitrary rendering function; None stands for a failed execution. */
module Templates {
  import opened Wrappers

  datatype TemplateSet = TemplateSet(
    wrapper: (string, string, string) -> Option<string>,
    header: string -> Option<string>,
    footer: string -> Option<string>)
}
