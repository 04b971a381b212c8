/** SHA-256 as an ideal hash: a free constructor, so equal digests have equal inputs. */
module Hash {
  datatype Digest = Sha256(input: string)
}
