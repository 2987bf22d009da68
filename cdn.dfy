/** The public CDN that serves every asset the head refers to. */
module Cdn {

  /** Every asset URL is this root, then the CDN version, then a path. */
  const Root: string := "https://cdnjs.cloudflare.com/ajax/libs/prism/"
}
