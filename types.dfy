/** The records the gateway returns for a bucket (`pkg/types.go`). */
module Types {

  /** The principal that owns a bucket and always receives FULL_CONTROL. */
  datatype Owner = Owner(id: string, displayName: string)

  /** A bucket as decoded from the answer to `GET <bucket>?max-keys=1`. */
  datatype Bucket = Bucket(name: string, tenant: string, s3Href: string, s3AltHref: string, owner: Owner)
}
