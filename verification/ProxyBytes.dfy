/** What the proxy's pipes and buffers hold. */
module ProxyBytes {
  type Byte = int
}
