/** The page paths that the guards redirect to and link to. */
module Routes {
  const HomePath := "/"
  const SignInPath := "/auth/signin"
  const DashboardPath := "/dashboard"
  const AdminPath := "/admin"
}
