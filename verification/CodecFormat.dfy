/** Sizes shared by the key and the value codec. */
module CodecFormat {
  /** Elements that share one scale. */
  const GROUP: nat := 32
  const MAX_HEAD: nat := 256
}
