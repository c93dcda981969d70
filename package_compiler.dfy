/** The package compiler (`CreatePackage`): one aggregate document made of the
    rendered header, the content as given, and the rendered footer, then
    normalised. */
module PackageCompiler {
  import opened Wrappers
  import opened Text
  import opened Normalize
  import opened Templates

  /** What ends a package run early: a failed header or footer execution. */
  datatype PackageFatal = HeaderFailed | FooterFailed

  /** The package file for `name`: empty when the header fails (the file was
      truncated and nothing written), header and content when the footer fails,
      and otherwise header, content and footer passed through the normaliser. */
  method CreatePackage(name: string, templates: TemplateSet, content: string)
    returns (packageFile: string, fatal: Option<PackageFatal>)
    ensures templates.header(name).None? ==> fatal == Some(HeaderFailed) && packageFile == ""
    ensures templates.header(name).Some? && templates.footer(name).None? ==>
      fatal == Some(FooterFailed) && packageFile == templates.header(name).value + content
    ensures templates.header(name).Some? && templates.footer(name).Some? ==>
      fatal == None &&
      packageFile == RemoveEmptyLines(templates.header(name).value + content + templates.footer(name).value)
  {
    packageFile := "";
    var header := templates.header(name);
    if header.None? {
      return packageFile, Some(HeaderFailed);
    }
    packageFile := packageFile + header.value;
    assert packageFile == header.value;
    var lines := Split(content, '\n');
    var contentToAppend := Join(lines, '\n');
    JoinSplit(content, '\n');
    packageFile := packageFile + contentToAppend;
    var footer := templates.footer(name);
    if footer.None? {
      return packageFile, Some(FooterFailed);
    }
    packageFile := packageFile + footer.value;
    assert packageFile == header.value + content + footer.value;
    packageFile := RemoveEmptyLines(packageFile);
    fatal := None;
  }
}
